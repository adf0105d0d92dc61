/**
  The promise of the connection controller over whole runs: which events can break it, and that
  nothing else does.
 */
module ConnectionRuns {
  import opened Prelude
  import opened ConnectionModel
  import opened ConnectionSafety

  // ---- what has to be avoided --------------------------------------------------------------

  /** A disconnect of the newest intent waits in the queue. */
  predicate DisconnectAsked(c: Controller) {
    !c.disposed && exists i :: 0 <= i < |c.link.queue| && c.link.queue[i].DisconnectOp? && c.link.queue[i].epoch == c.epoch
  }

  predicate Named(v: View, id: Id) {
    v.target == Some(id) || v.active == Some(id)
  }

  /** The statuses name the physical id; or they name every session, and no operation runs. */
  predicate Truthful(c: Controller, l: Listing)
    requires |l.connected| == |l.trusted|
  {
    || FirstConnected(l) == c.link.physical
    || (c.link.running.Quiet? && c.link.live <= Held(FirstConnected(l)) + Dropping(c.inflight))
  }

  /** What an event must not be, read off the event and the state it meets: a disconnect that is
      swallowed does not fail; a reload tells the truth; a confirmation comes while no operation
      runs and no other server is held, or late for a server the screen does not name; and no
      disconnect is asked for across a rollback. */
  predicate Calm(c: Controller, e: Event)
    requires Enabled(c, e)
  {
    match e
    case Ask(i) => i.DoDisconnectActive? ==> !c.link.running.RollingBack?
    case Hear(r) =>
      && (r.OnList? && r.listing.Ok? && Current(c, r.epoch) ==> Truthful(c, r.listing.value))
      && (r.OnConfirm? && r.launch.Ok? && Current(c, r.epoch) ==>
            c.link.running.Quiet? && Held(c.link.physical) <= {r.launch.value})
      && (r.OnConfirm? && r.launch.Ok? && !Current(c, r.epoch) ==>
            !Named(c.view, r.launch.value) || c.link.physical == Some(r.launch.value))
      && (r.OnStrayDrop? ==> r.ok)
    case Work(s) =>
      && (s.OnStaleDropped? ==> s.ok || c.link.physical != Some(c.link.running.op.id))
      && (s.OnSupersededDropped? ==> s.ok)
      && (s.OnPreviousDropped? && s.failure.Some? ==> !DisconnectAsked(c))
      && (s.OnRolledBack? ==> s.ok)
  }

  predicate CalmRun(c: Controller, run: seq<Event>)
    requires Possible(c, run)
    decreases |run|
  {
    run == [] || (Calm(c, run[0]) && CalmRun(Step(c, run[0]), run[1..]))
  }

  // ---- the invariant of calm runs ------------------------------------------------------------

  /** A switch holds the launch it opened, whoever superseded it. */
  predicate SwitchHeld(l: Link) {
    && (l.running.DroppingPrevious? ==> l.physical == Some(l.running.launch) && l.running.launch != l.running.previous)
    && (l.running.RollingBack? ==> l.physical == Some(l.running.launch) && l.running.launch != l.running.previous)
  }

  /** A disconnect under way, or asked for by the newest intent, captured the id that is held. */
  ghost predicate DisconnectHeld(c: Controller) {
    && (c.link.running.Disconnecting? ==> Held(c.link.physical) <= {c.link.running.op.id})
    && (!c.disposed ==> forall i :: 0 <= i < |c.link.queue| && c.link.queue[i].DisconnectOp? && c.link.queue[i].epoch == c.epoch ==>
          Held(c.link.physical) <= {c.link.queue[i].id} && !c.link.running.RollingBack?)
  }

  predicate ShownAtRest(c: Controller) {
    c.view.phase.Connected? ==> c.link.running.Quiet?
  }

  ghost predicate Orderly(c: Controller) {
    Inv(c, {}) && SwitchHeld(c.link) && DisconnectHeld(c) && ShownAtRest(c)
  }

  lemma CalmAsk(c: Controller, i: Intention)
    requires Orderly(c) && Calm(c, Ask(i))
    ensures Orderly(Asked(c, i)) && KeptAfter(c, {}, Ask(i)) == {}
  {
    AskKeeps(c, {}, i);
    if !Ignored(c, i) {
      IntentLeavesConnected(c, i);
      AskedOpShape(c, i);
    }
  }

  // ---- answers outside the queue -----------------------------------------------------------------

  lemma ReloadKeeps(c: Controller, epoch: nat, l: Listing)
    requires Orderly(c) && Enabled(c, Hear(OnList(epoch, Ok(l)))) && Current(c, epoch) && Truthful(c, l)
    ensures Inv(Reported(c, OnList(epoch, Ok(l))), {})
  {
    var r := OnList(epoch, Ok(l));
    HearKeepsQueue(c, {}, r);
    HearKeepsView(c, {}, r);
    LiveMoves(c, Hear(r));
    StrayDropsStay(c, r);
  }

  lemma CalmHearKeeps(c: Controller, r: Report)
    requires Orderly(c) && Enabled(c, Hear(r)) && Calm(c, Hear(r))
    ensures Inv(Reported(c, r), {})
  {
    var e := Hear(r);
    if r.OnList? && r.listing.Ok? && Current(c, r.epoch) {
      ReloadKeeps(c, r.epoch, r.listing.value);
    } else {
      if r.OnConfirm? && r.launch.Ok? {
        ConfirmExact(c, {}, r.epoch, r.launch.value);
      } else if r.OnStrayDrop? {
        StrayDropExact(c, {}, r.epoch, r.id, r.ok);
      } else {
        SturdyBalances(c, {}, e);
      }
      assert KeptAfter(c, {}, e) == {};
      HearKeeps(c, {}, r);
    }
  }

  /** The two answers that write the physical id belong to no operation of the queue. */
  lemma WriterIsAlone(c: Controller, r: Report, i: nat)
    requires Orderly(c) && Heard(c, r) && (r.OnList? || r.OnConfirm?) && Current(c, r.epoch) && i < |c.link.queue|
    ensures c.link.queue[i].epoch != c.epoch
  {
    assert AwaitOf(r).value in c.inflight && WritesPhysical(AwaitOf(r).value);
  }

  lemma CalmHear(c: Controller, r: Report)
    requires Orderly(c) && Enabled(c, Hear(r)) && Calm(c, Hear(r))
    ensures Orderly(Reported(c, r))
  {
    CalmHearKeeps(c, r);
    ReportPhysical(c, r);
    if (r.OnList? || r.OnConfirm?) && Current(c, r.epoch) {
      forall i | 0 <= i < |c.link.queue| ensures c.link.queue[i].epoch != c.epoch {
        WriterIsAlone(c, r, i);
      }
    }
    if !(r.OnConfirm? && r.launch.Ok?) {
      ReportConnects(c.view, r);
    }
  }

  // ---- the connection queue ---------------------------------------------------------------------

  lemma CalmWorkBalances(c: Controller, s: QueueStep)
    requires Orderly(c) && Enabled(c, Work(s)) && Calm(c, Work(s))
    ensures Balanced(c, {}, Work(s)) && LeavesShown(c, Work(s))
  {
    match s
    case OnStaleDropped(ok) => StaleDropExact(c, {}, ok);
    case OnSupersededDropped(ok) => SupersededDropExact(c, {}, ok);
    case OnPreviousDropped(failure) =>
      if failure.None? {
        PreviousDropExact(c, {});
      } else {
        SturdyBalances(c, {}, Work(s));
      }
    case OnRolledBack(ok) => RollbackExact(c, {}, ok);
    case OnDisconnect(failure) =>
      if failure.None? {
        DisconnectExact(c, {});
      } else {
        SturdyBalances(c, {}, Work(s));
      }
    case _ => SturdyBalances(c, {}, Work(s));
  }

  /** The operation in progress is older than whatever waits behind it. */
  lemma WorkLeavesAsked(c: Controller, s: QueueStep)
    requires Orderly(c) && Enabled(c, Work(s)) && Calm(c, Work(s))
    ensures DisconnectHeld(Worked(c, s)) && SwitchHeld(Worked(c, s).link)
  {
    if !s.OnStartOp? {
      WorkMovesOn(c.link, s, WorkCurrent(c, s));
      if HasOp(c.link.running) {
        CurrentRunsAlone(c.link, c.epoch);
      }
    }
  }

  lemma WorkRests(c: Controller, s: QueueStep)
    requires Orderly(c) && Enabled(c, Work(s))
    ensures ShownAtRest(Worked(c, s))
  {
    if !c.view.phase.Connected? && WorkCurrent(c, s) {
      WorkConnects(c.view, c.link, s);
    }
  }

  lemma CalmWork(c: Controller, s: QueueStep)
    requires Orderly(c) && Enabled(c, Work(s)) && Calm(c, Work(s))
    ensures Orderly(Worked(c, s))
  {
    CalmWorkBalances(c, s);
    WorkKeeps(c, {}, s);
    WorkLeavesAsked(c, s);
    WorkRests(c, s);
  }

  lemma CalmKeeps(c: Controller, e: Event)
    requires Orderly(c) && Enabled(c, e) && Calm(c, e)
    ensures Orderly(Step(c, e))
  {
    match e
    case Ask(i) => CalmAsk(c, i);
    case Hear(r) => CalmHear(c, r);
    case Work(s) => CalmWork(c, s);
  }

  // ---- the promise -------------------------------------------------------------------------------

  lemma {:induction false} CalmAlways(c: Controller, run: seq<Event>)
    requires Orderly(c) && Possible(c, run) && CalmRun(c, run)
    ensures Orderly(After(c, run))
    decreases |run|
  {
    if run != [] {
      CalmKeeps(c, run[0]);
      CalmAlways(Step(c, run[0]), run[1..]);
    }
  }

  /** The controller after a truthful first load, whatever session the native side kept. */
  function Loaded(live: set<Id>, error: Option<Notice>, l: Listing): Controller
    requires |l.connected| == |l.trusted|
  {
    Reported(Asked(Initial(live, error), DoLoad), OnList(1, Ok(l)))
  }

  lemma LoadedOrderly(live: set<Id>, error: Option<Notice>, l: Listing)
    requires |l.connected| == |l.trusted| && live <= Held(FirstConnected(l))
    ensures Orderly(Loaded(live, error, l)) && Loaded(live, error, l).inflight == {}
  {
    FirstLoadSynchronises(live, error, l);
  }

  /** After a truthful first load, over every interleaving of intents, native answers and queue
      steps in which nothing uncalm happens: "connected" names the physical connection, and
      while no queued operation runs every session the native side has open is the physical one
      or one whose disconnect is under way. */
  lemma SafeAlways(live: set<Id>, error: Option<Notice>, l: Listing, run: seq<Event>)
    requires |l.connected| == |l.trusted| && live <= Held(FirstConnected(l))
    requires Possible(Loaded(live, error, l), run) && CalmRun(Loaded(live, error, l), run)
    ensures Safe(After(Loaded(live, error, l), run), {})
  {
    LoadedOrderly(live, error, l);
    CalmAlways(Loaded(live, error, l), run);
  }

  // ---- read off the events alone --------------------------------------------------------------------

  /** Every disconnect whose answer counts succeeds, and neither a confirmation nor a current
      reload writes the physical id behind the queue's back. */
  predicate Plain(epoch: nat, e: Event) {
    match e
    case Ask(_) => true
    case Hear(r) => !(r.OnConfirm? && r.launch.Ok?) && !(r.OnList? && r.listing.Ok? && r.epoch == epoch)
    case Work(s) =>
      && (s.OnStaleDropped? || s.OnSupersededDropped? ==> s.ok)
      && (s.OnPreviousDropped? ==> s.failure.None?)
  }

  predicate PlainRun(c: Controller, run: seq<Event>)
    requires Possible(c, run)
    decreases |run|
  {
    run == [] || (Plain(c.epoch, run[0]) && PlainRun(Step(c, run[0]), run[1..]))
  }

  ghost predicate Unburdened(c: Controller) {
    Orderly(c) && !c.link.running.RollingBack? && forall a :: a in c.inflight ==> !a.AwaitStrayDrop?
  }

  lemma PlainKeeps(c: Controller, e: Event)
    requires Unburdened(c) && Enabled(c, e) && Plain(c.epoch, e)
    ensures Unburdened(Step(c, e))
  {
    CalmKeeps(c, e);
    if e.Hear? {
      forall a | a in Step(c, e).inflight ensures !a.AwaitStrayDrop? {
        assert NextAwait(c, e.report) != Some(a) ==> a in c.inflight;
      }
    }
  }

  lemma {:induction false} PlainAlways(c: Controller, run: seq<Event>)
    requires Unburdened(c) && Possible(c, run) && PlainRun(c, run)
    ensures Unburdened(After(c, run))
    decreases |run|
  {
    if run != [] {
      PlainKeeps(c, run[0]);
      PlainAlways(Step(c, run[0]), run[1..]);
    }
  }

  /** After a truthful first load, over every interleaving of connects, recoveries, disconnects,
      forgets, stalled launches and all other intents, however each launch, disconnect and forget
      of the queue ends: "connected" names the physical connection, and while no queued operation
      runs no session is open but that one. */
  lemma QueueAlone(live: set<Id>, error: Option<Notice>, l: Listing, run: seq<Event>)
    requires |l.connected| == |l.trusted| && live <= Held(FirstConnected(l))
    requires Possible(Loaded(live, error, l), run) && PlainRun(Loaded(live, error, l), run)
    ensures var c := After(Loaded(live, error, l), run);
            ViewHonest(c.view, c.link) && (c.link.running.Quiet? ==> c.link.live <= Held(c.link.physical))
  {
    LoadedOrderly(live, error, l);
    PlainAlways(Loaded(live, error, l), run);
  }

  // ---- the condition is sharp ------------------------------------------------------------------------

  /** The steps at which an uncalm event breaks the accounting at once. A reload or a confirmation
      heard while an operation runs, and a disconnect asked for across a rollback, break it when
      that operation or that disconnect ends. */
  predicate AtOnce(c: Controller, e: Event) {
    (e.Hear? && c.link.running.Quiet?) || (e.Work? && !e.step.OnPreviousDropped?)
  }

  /** Where every session the fields name is really open, an event is calm exactly when the fields
      still account for every open session afterwards. */
  lemma CalmIsSharp(c: Controller, e: Event)
    requires Orderly(c) && Enabled(c, e) && AtOnce(c, e)
    requires Ledger(c, {}) <= c.link.live && forall a :: a in c.inflight ==> !a.AwaitStrayDrop?
    ensures Calm(c, e) <==> Step(c, e).link.live <= Ledger(Step(c, e), {})
  {
    if Calm(c, e) {
      CalmKeeps(c, e);
    } else {
      LiveMoves(c, e);
      if e.Hear? {
        assert !e.report.OnStrayDrop?;
        StrayDropsStay(c, e.report);
      }
    }
  }
}
