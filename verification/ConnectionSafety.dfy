/**
  What every interleaving of the connection controller keeps: an open-looking screen names the
  session the phone believes it holds, and every session the native side has open is one the
  controller's own fields account for.
 */
module ConnectionSafety {
  import opened Prelude
  import opened ConnectionModel

  // ---- the ledger ------------------------------------------------------------

  function Held(physical: Option<Id>): set<Id> {
    if physical.Some? then {physical.value} else {}
  }

  /** The sessions the operation in progress is about to drop or to keep. */
  function AtWork(r: Running): set<Id> {
    match r
    case DroppingSuperseded(launch) => {launch}
    case DroppingPrevious(_, launch, previous) => {launch, previous}
    case RollingBack(_, launch, previous, _) => {launch, previous}
    case _ => {}
  }

  /** The launches of late confirmations whose disconnect is under way. */
  function Dropping(inflight: set<Await>): set<Id> {
    set a | a in inflight && a.AwaitStrayDrop? :: a.launch
  }

  /** What is owed outside the physical id: disconnects under way, and `kept`, the late
      confirmations that were not dropped because the screen named them. */
  function Owed(c: Controller, kept: set<Id>): set<Id> {
    Dropping(c.inflight) + kept
  }

  /** Every id whose session the controller's fields account for. */
  function Ledger(c: Controller, kept: set<Id>): set<Id> {
    Held(c.link.physical) + AtWork(c.link.running) + Owed(c, kept)
  }

  /** Sessions a step certainly closed, and the one it opened. */
  function Closed(c: Controller, e: Event): set<Id>
    requires Enabled(c, e)
  {
    match e
    case Ask(_) => {}
    case Hear(r) =>
      if r.OnStrayDrop? && r.ok then {r.id} else if r.OnSessionLost? then {r.id} else {}
    case Work(s) =>
      var running := c.link.running;
      match s
      case OnStaleDropped(ok) => if ok then {running.op.id} else {}
      case OnSupersededDropped(ok) => if ok then {running.launch} else {}
      case OnPreviousDropped(failure) => if failure.None? then {running.previous} else {}
      case OnRolledBack(ok) => if ok then {running.launch} else {}
      case OnDisconnect(failure) => if failure.None? then {running.op.id} else {}
      case OnForget(failure) => if failure.None? then {running.op.id} else {}
      case OnStartOp => {}
      case OnLaunch(_) => {}
  }

  function Opened(e: Event): set<Id> {
    match e
    case Ask(_) => {}
    case Hear(r) => if r.OnConfirm? && r.launch.Ok? then {r.launch.value} else {}
    case Work(s) => if s.OnLaunch? && s.launched.Ok? && s.launched.value.Launch? then {s.launched.value.launch} else {}
  }

  /** A confirmation that comes late while the screen names its server, as target or as active. */
  predicate KeepsLate(c: Controller, e: Event) {
    && e.Hear? && e.report.OnConfirm? && e.report.launch.Ok? && !Current(c, e.report.epoch)
    && (c.view.target == Some(e.report.launch.value) || c.view.active == Some(e.report.launch.value))
  }

  /** A kept session leaves the debt when it is closed or becomes the physical one. */
  function KeptAfter(c: Controller, kept: set<Id>, e: Event): set<Id>
    requires Enabled(c, e)
  {
    (if KeepsLate(c, e) then kept + Opened(e) else kept) - Closed(c, e) - Held(Step(c, e).link.physical)
  }

  /** After the step the ledger still covers whatever was covered before. */
  predicate Balanced(c: Controller, kept: set<Id>, e: Event)
    requires Enabled(c, e)
  {
    Ledger(c, kept) - Closed(c, e) + Opened(e) <= Ledger(Step(c, e), KeptAfter(c, kept, e))
  }

  // ---- the promise -----------------------------------------------------------

  /** "Connected" names the physical connection. */
  predicate ViewHonest(v: View, l: Link) {
    v.phase.Connected? ==> l.physical.Some? && v.active == l.physical
  }

  /** While no queued operation runs, every open session is the physical one, or is being
      dropped, or was confirmed late and kept. */
  predicate NothingStray(c: Controller, kept: set<Id>) {
    c.link.running.Quiet? ==> c.link.live <= Held(c.link.physical) + Owed(c, kept)
  }

  predicate Safe(c: Controller, kept: set<Id>) {
    ViewHonest(c.view, c.link) && NothingStray(c, kept)
  }

  /** A superseded operation that ends under a screen saying "connected" leaves the physical id. */
  predicate LeavesShown(c: Controller, e: Event)
    requires Enabled(c, e)
  {
    e.Work? && c.view.phase.Connected? ==> Step(c, e).link.physical == c.link.physical
  }

  /** What a step needs for the promise, in the controller's own fields. */
  predicate Benign(c: Controller, kept: set<Id>, e: Event)
    requires Enabled(c, e)
  {
    Balanced(c, kept, e) && LeavesShown(c, e)
  }

  predicate AllBenign(c: Controller, kept: set<Id>, run: seq<Event>)
    requires Possible(c, run)
    decreases |run|
  {
    run == [] || (Benign(c, kept, run[0]) && AllBenign(Step(c, run[0]), KeptAfter(c, kept, run[0]), run[1..]))
  }

  function KeptOver(c: Controller, kept: set<Id>, run: seq<Event>): set<Id>
    requires Possible(c, run)
    decreases |run|
  {
    if run == [] then kept else KeptOver(Step(c, run[0]), KeptAfter(c, kept, run[0]), run[1..])
  }

  // ---- the inductive invariant ---------------------------------------------------

  ghost predicate RunningBefore(r: Running, epoch: nat) {
    HasOp(r) ==> r.op.epoch < epoch
  }

  /** Continuations that write the physical id without going through the queue. */
  ghost predicate WritesPhysical(a: Await) {
    a.AwaitList? || a.AwaitConfirm?
  }

  /** The queue is in epoch order, behind the operation in progress. */
  ghost predicate QueueOrdered(queue: seq<Op>, running: Running, epoch: nat) {
    && RunningBefore(running, epoch + 1)
    && (forall i :: 0 <= i < |queue| ==> queue[i].epoch <= epoch && RunningBefore(running, queue[i].epoch))
    && (forall i, j :: 0 <= i < j < |queue| ==> queue[i].epoch < queue[j].epoch)
  }

  /** An epoch belongs to one continuation or one operation. */
  ghost predicate EpochsApart(queue: seq<Op>, running: Running, inflight: set<Await>, epoch: nat) {
    forall a :: a in inflight && WritesPhysical(a) ==>
      && a.epoch <= epoch && (HasOp(running) ==> running.op.epoch != a.epoch)
      && forall i :: 0 <= i < |queue| ==> queue[i].epoch != a.epoch
  }

  /** Once "connected" shows, every operation left is superseded. */
  ghost predicate Settled(v: View, l: Link, epoch: nat, disposed: bool) {
    v.phase.Connected? && !disposed ==>
      RunningBefore(l.running, epoch) && forall i :: 0 <= i < |l.queue| ==> l.queue[i].epoch < epoch
  }

  /** A current switch still holds the launch it opened. */
  ghost predicate SwitchHolds(l: Link, epoch: nat, disposed: bool) {
    l.running.DroppingPrevious? && !disposed && l.running.op.epoch == epoch ==> l.physical == Some(l.running.launch)
  }

  ghost predicate Inv(c: Controller, kept: set<Id>) {
    && QueueOrdered(c.link.queue, c.link.running, c.epoch)
    && EpochsApart(c.link.queue, c.link.running, c.inflight, c.epoch)
    && Settled(c.view, c.link, c.epoch, c.disposed)
    && SwitchHolds(c.link, c.epoch, c.disposed)
    && ViewHonest(c.view, c.link)
    && c.link.live <= Ledger(c, kept)
  }

  // ---- the balance -----------------------------------------------------------------

  lemma LiveMoves(c: Controller, e: Event)
    requires Enabled(c, e)
    ensures Step(c, e).link.live == c.link.live - Closed(c, e) + Opened(e)
  {
  }

  /** The same controller over another native side. */
  function WithLive(c: Controller, live: set<Id>): Controller {
    c.(link := c.link.(live := live))
  }

  /** What the ledger reads of a controller. */
  predicate SameBooks(c: Controller, d: Controller) {
    c.link.physical == d.link.physical && c.link.running == d.link.running && c.inflight == d.inflight
  }

  lemma SameBooksAfter(c: Controller, e: Event, live: set<Id>)
    requires Enabled(c, e)
    ensures Enabled(WithLive(c, live), e) && SameBooks(Step(WithLive(c, live), e), Step(c, e))
  {
  }

  lemma FieldsDecide(c: Controller, kept: set<Id>, e: Event, live: set<Id>)
    requires Enabled(c, e)
    ensures Enabled(WithLive(c, live), e)
    ensures Step(WithLive(c, live), e).link.live == live - Closed(c, e) + Opened(e)
    ensures Ledger(Step(WithLive(c, live), e), KeptAfter(WithLive(c, live), kept, e)) == Ledger(Step(c, e), KeptAfter(c, kept, e))
  {
    SameBooksAfter(c, e, live);
    LiveMoves(WithLive(c, live), e);
    assert Closed(WithLive(c, live), e) == Closed(c, e);
  }

  /** The ledger covers the native side after the step. */
  predicate Covered(c: Controller, kept: set<Id>, e: Event)
    requires Enabled(c, e)
  {
    Step(c, e).link.live <= Ledger(Step(c, e), KeptAfter(c, kept, e))
  }

  /** A step keeps the accounting for every native side it accounts for if and only if its fields
      balance. */
  lemma BalanceExact(c: Controller, kept: set<Id>, e: Event)
    requires Enabled(c, e)
    ensures Balanced(c, kept, e) <==>
            forall live: set<Id> :: live <= Ledger(c, kept) ==> Covered(WithLive(c, live), kept, e)
  {
    forall live: set<Id> ensures Covered(WithLive(c, live), kept, e) <==>
        live - Closed(c, e) + Opened(e) <= Ledger(Step(c, e), KeptAfter(c, kept, e)) {
      FieldsDecide(c, kept, e, live);
    }
    if !Balanced(c, kept, e) {
      assert !Covered(WithLive(c, Ledger(c, kept)), kept, e);
    }
  }

  // ---- which steps balance: an exact condition per site --------------------------------

  /** The steps that can lose a session; all others always balance. */
  predicate Fragile(c: Controller, e: Event)
    requires Enabled(c, e)
  {
    match e
    case Ask(_) => false
    case Hear(r) =>
      || (r.OnList? && r.listing.Ok? && Current(c, r.epoch))
      || (r.OnConfirm? && r.launch.Ok? && Current(c, r.epoch))
      || (r.OnStrayDrop? && !r.ok)
    case Work(s) =>
      || (s.OnStaleDropped? && !s.ok) || (s.OnSupersededDropped? && !s.ok)
      || (s.OnPreviousDropped? && s.failure.None?) || s.OnRolledBack? || (s.OnDisconnect? && s.failure.None?)
  }

  lemma AskBalances(c: Controller, kept: set<Id>, i: Intention)
    ensures Balanced(c, kept, Ask(i))
  {
    assert forall a :: a in c.inflight ==> a in Asked(c, i).inflight;
  }

  /** A continuation outside the queue leaves every other disconnect under way. */
  lemma DroppingMoves(c: Controller, r: Report, id: Id)
    requires Heard(c, r) && id in Dropping(c.inflight) && !(r.OnStrayDrop? && r.id == id)
    ensures id in Dropping(Reported(c, r).inflight)
  {
    var a :| a in c.inflight && a.AwaitStrayDrop? && a.launch == id;
    assert AwaitOf(r) != Some(a);
    assert a in Reported(c, r).inflight;
  }

  lemma HearBalances(c: Controller, kept: set<Id>, r: Report)
    requires Enabled(c, Hear(r)) && !Fragile(c, Hear(r))
    ensures Balanced(c, kept, Hear(r))
  {
    var e := Hear(r);
    forall id | id in Ledger(c, kept) - Closed(c, e) + Opened(e)
      ensures id in Ledger(Step(c, e), KeptAfter(c, kept, e))
    {
      if id in Dropping(c.inflight) && !(r.OnStrayDrop? && r.id == id) {
        DroppingMoves(c, r, id);
      }
      if id in Opened(e) && !KeepsLate(c, e) {
        assert AwaitStrayDrop(r.epoch, id) in Reported(c, r).inflight;
      }
    }
  }

  lemma WorkBalances(c: Controller, kept: set<Id>, s: QueueStep)
    requires Enabled(c, Work(s)) && !Fragile(c, Work(s))
    ensures Balanced(c, kept, Work(s))
  {
  }

  /** Every intent, every late confirmation, every launch and every failure that keeps its session
      balances. */
  lemma SturdyBalances(c: Controller, kept: set<Id>, e: Event)
    requires Enabled(c, e) && !Fragile(c, e)
    ensures Balanced(c, kept, e)
  {
    match e
    case Ask(i) => AskBalances(c, kept, i);
    case Hear(r) => HearBalances(c, kept, r);
    case Work(s) => WorkBalances(c, kept, s);
  }

  /** A reload, whatever operation runs, balances exactly when it is superseded, or the physical
      id is free, named by the statuses, in the hands of the operation in progress, or owed. */
  lemma ReloadExact(c: Controller, kept: set<Id>, epoch: nat, l: Listing)
    requires Enabled(c, Hear(OnList(epoch, Ok(l))))
    ensures Balanced(c, kept, Hear(OnList(epoch, Ok(l)))) <==>
            !Current(c, epoch) || Held(c.link.physical) <= Held(FirstConnected(l)) + AtWork(c.link.running) + Owed(c, kept)
  {
    var e := Hear(OnList(epoch, Ok(l)));
    if !Current(c, epoch) {
      HearBalances(c, kept, e.report);
    } else {
      StrayDropsStay(c, e.report);
    }
  }

  lemma StrayDropsStay(c: Controller, r: Report)
    requires Heard(c, r) && !r.OnStrayDrop? && NextAwait(c, r).None?
    ensures Dropping(Reported(c, r).inflight) == Dropping(c.inflight)
  {
    forall id | id in Dropping(c.inflight) ensures id in Dropping(Reported(c, r).inflight) {
      DroppingMoves(c, r, id);
    }
  }

  /** A confirmation, late or current and whatever operation runs, balances exactly when it is
      late, or the physical id is free, the confirmed server, in the hands of the operation in
      progress, or owed. */
  lemma ConfirmExact(c: Controller, kept: set<Id>, epoch: nat, launch: Id)
    requires Enabled(c, Hear(OnConfirm(epoch, Ok(launch))))
    ensures Balanced(c, kept, Hear(OnConfirm(epoch, Ok(launch)))) <==>
            !Current(c, epoch) || Held(c.link.physical) <= {launch} + AtWork(c.link.running) + Owed(c, kept)
  {
    var e := Hear(OnConfirm(epoch, Ok(launch)));
    if !Current(c, epoch) {
      HearBalances(c, kept, e.report);
    } else {
      StrayDropsStay(c, e.report);
      assert Ledger(Step(c, e), KeptAfter(c, kept, e)) == {launch} + AtWork(c.link.running) + Owed(c, kept);
    }
  }

  /** Dropping a stray launch may fail only where something else accounts for it. */
  lemma StrayDropExact(c: Controller, kept: set<Id>, epoch: nat, id: Id, ok: bool)
    requires Enabled(c, Hear(OnStrayDrop(epoch, id, ok)))
    ensures Balanced(c, kept, Hear(OnStrayDrop(epoch, id, ok))) <==>
            ok || id in Held(c.link.physical) + AtWork(c.link.running) + kept
               || exists other :: other != epoch && AwaitStrayDrop(other, id) in c.inflight
  {
    var e := Hear(OnStrayDrop(epoch, id, ok));
    var d := Step(c, e);
    if ok {
      HearBalances(c, kept, e.report);
    } else {
      assert AwaitStrayDrop(epoch, id) in c.inflight;
      forall x | x in Dropping(c.inflight) && x != id ensures x in Dropping(d.inflight) {
        DroppingMoves(c, e.report, x);
      }
      if id in Dropping(d.inflight) {
        var a :| a in d.inflight && a.AwaitStrayDrop? && a.launch == id;
        assert a.epoch != epoch && AwaitStrayDrop(a.epoch, id) in c.inflight;
      }
      forall other | other != epoch && AwaitStrayDrop(other, id) in c.inflight ensures id in Dropping(d.inflight) {
        assert AwaitStrayDrop(other, id) in d.inflight;
      }
    }
  }

  /** The disconnects of the queue whose failure is swallowed: a stale launch ... */
  lemma StaleDropExact(c: Controller, kept: set<Id>, ok: bool)
    requires Enabled(c, Work(OnStaleDropped(ok)))
    ensures var id := c.link.running.op.id;
            Balanced(c, kept, Work(OnStaleDropped(ok))) <==> ok || c.link.physical != Some(id) || id in Owed(c, kept)
  {
    var e, id := Work(OnStaleDropped(ok)), c.link.running.op.id;
    assert Closed(c, e) == (if ok then {id} else {}) && Opened(e) == {};
    assert Ledger(c, kept) == Held(c.link.physical) + Owed(c, kept);
    assert Ledger(Step(c, e), KeptAfter(c, kept, e)) + Closed(c, e)
        == Held(Forgotten(c.link.physical, id)) + Owed(c, kept) + Closed(c, e);
    assert Balanced(c, kept, e) <==> Ledger(c, kept) <= Ledger(Step(c, e), KeptAfter(c, kept, e)) + Closed(c, e);
  }

  /** ... and a superseded one. */
  lemma SupersededDropExact(c: Controller, kept: set<Id>, ok: bool)
    requires Enabled(c, Work(OnSupersededDropped(ok)))
    ensures Balanced(c, kept, Work(OnSupersededDropped(ok))) <==> ok || c.link.running.launch in Owed(c, kept)
  {
    var e, id := Work(OnSupersededDropped(ok)), c.link.running.launch;
    assert Closed(c, e) == (if ok then {id} else {}) && Opened(e) == {};
    assert Ledger(c, kept) == Held(c.link.physical) + {id} + Owed(c, kept);
    assert Ledger(Step(c, e), KeptAfter(c, kept, e)) + Closed(c, e)
        == Held(Forgotten(c.link.physical, id)) + Owed(c, kept) + Closed(c, e);
    assert Balanced(c, kept, e) <==> Ledger(c, kept) <= Ledger(Step(c, e), KeptAfter(c, kept, e)) + Closed(c, e);
  }

  /** Dropping the previous server balances exactly when the launch is still held: no reload or
      confirmation heard meanwhile put another id in its place. */
  lemma PreviousDropExact(c: Controller, kept: set<Id>)
    requires Enabled(c, Work(OnPreviousDropped(None)))
    ensures var r := c.link.running;
            Balanced(c, kept, Work(OnPreviousDropped(None))) <==>
              c.link.physical == Some(r.launch) || r.launch in Owed(c, kept) || r.launch == r.previous
  {
    var e, r := Work(OnPreviousDropped(None)), c.link.running;
    assert Closed(c, e) == {r.previous} && Opened(e) == {};
    assert Ledger(Step(c, e), KeptAfter(c, kept, e)) + {r.previous} == Held(c.link.physical) + Owed(c, kept) + {r.previous};
    assert Ledger(c, kept) == Held(c.link.physical) + Owed(c, kept) + {r.launch, r.previous};
    assert Balanced(c, kept, e) <==> Ledger(c, kept) <= Ledger(Step(c, e), KeptAfter(c, kept, e)) + {r.previous};
  }

  /** A rollback balances exactly when the launch is gone (or owed) and nothing else was put in
      its place meanwhile. */
  lemma RollbackExact(c: Controller, kept: set<Id>, ok: bool)
    requires Enabled(c, Work(OnRolledBack(ok)))
    ensures var r := c.link.running;
            Balanced(c, kept, Work(OnRolledBack(ok))) <==>
              && (ok || r.launch == r.previous || r.launch in Owed(c, kept))
              && Held(c.link.physical) <= (if ok then {r.launch} else {}) + {r.previous} + Owed(c, kept)
  {
    var e, r := Work(OnRolledBack(ok)), c.link.running;
    assert Closed(c, e) == (if ok then {r.launch} else {}) && Opened(e) == {};
    assert Ledger(Step(c, e), KeptAfter(c, kept, e)) + Closed(c, e) == {r.previous} + Owed(c, kept) + Closed(c, e);
    assert Ledger(c, kept) == Held(c.link.physical) + Owed(c, kept) + {r.launch, r.previous};
    assert Balanced(c, kept, e) <==> Ledger(c, kept) <= Ledger(Step(c, e), KeptAfter(c, kept, e)) + Closed(c, e);
  }

  /** A disconnect that succeeds forgets the physical id: it balances exactly when that id is free,
      the one it captured when it was asked for, or owed. */
  lemma DisconnectExact(c: Controller, kept: set<Id>)
    requires Enabled(c, Work(OnDisconnect(None)))
    ensures Balanced(c, kept, Work(OnDisconnect(None))) <==>
            Held(c.link.physical) <= {c.link.running.op.id} + Owed(c, kept)
  {
    var e, id := Work(OnDisconnect(None)), c.link.running.op.id;
    assert Closed(c, e) == {id} && Opened(e) == {};
    assert Ledger(Step(c, e), KeptAfter(c, kept, e)) + {id} == Owed(c, kept) + {id};
    assert Balanced(c, kept, e) <==> Ledger(c, kept) <= Ledger(Step(c, e), KeptAfter(c, kept, e)) + {id};
  }

  // ---- every benign step keeps the invariant ---------------------------------------------

  lemma IntentLeavesConnected(c: Controller, i: Intention)
    requires !Ignored(c, i)
    ensures Asked(c, i).view.phase.Connected? ==> Asked(c, i).disposed && Asked(c, i).view == c.view
  {
  }

  lemma AskedOpShape(c: Controller, i: Intention)
    ensures var op := AskedOp(c, i); op.Some? ==> op.value.epoch == c.epoch + 1 && AskedAwait(c, i).None?
    ensures var a := AskedAwait(c, i); a.Some? && WritesPhysical(a.value) ==> a.value.epoch == c.epoch + 1
  {
  }

  lemma AskKeeps(c: Controller, kept: set<Id>, i: Intention)
    requires Inv(c, kept)
    ensures Inv(Asked(c, i), KeptAfter(c, kept, Ask(i)))
  {
    AskBalances(c, kept, i);
    LiveMoves(c, Ask(i));
    if !Ignored(c, i) {
      IntentLeavesConnected(c, i);
      AskedOpShape(c, i);
    }
  }

  /** Only a confirmed pairing makes a report show "connected". */
  lemma ReportConnects(v: View, r: Report)
    requires r.OnList? && r.listing.Ok? ==> |r.listing.value.connected| == |r.listing.value.trusted|
    requires r.OnDiscoveryUpdate? ==> !r.phase.Connected?
    requires !(r.OnConfirm? && r.launch.Ok?)
    ensures var w := ReportedView(v, r);
            w.phase.Connected? ==> v.phase.Connected? && w.active == v.active
  {
  }

  lemma ReportAwaits(c: Controller, r: Report, a: Await)
    requires Heard(c, r) && a in Reported(c, r).inflight && WritesPhysical(a)
    ensures a in c.inflight
  {
    assert NextAwait(c, r) != Some(a);
  }

  /** A report moves the physical id only as a current list or confirmation. */
  lemma ReportPhysical(c: Controller, r: Report)
    requires Heard(c, r)
    ensures var l := Reported(c, r).link;
            && l.queue == c.link.queue && l.running == c.link.running
            && (l.physical == c.link.physical
                || (r.OnList? && r.listing.Ok? && Current(c, r.epoch)) || (r.OnConfirm? && r.launch.Ok? && Current(c, r.epoch)))
  {
  }

  lemma HearKeepsQueue(c: Controller, kept: set<Id>, r: Report)
    requires Inv(c, kept) && Heard(c, r)
    ensures var d := Reported(c, r);
            && QueueOrdered(d.link.queue, d.link.running, d.epoch)
            && EpochsApart(d.link.queue, d.link.running, d.inflight, d.epoch)
            && SwitchHolds(d.link, d.epoch, d.disposed)
  {
    ReportPhysical(c, r);
    forall a | a in Reported(c, r).inflight && WritesPhysical(a) ensures a in c.inflight {
      ReportAwaits(c, r, a);
    }
  }

  lemma HearKeepsView(c: Controller, kept: set<Id>, r: Report)
    requires Inv(c, kept) && Heard(c, r)
    ensures var d := Reported(c, r);
            Settled(d.view, d.link, d.epoch, d.disposed) && ViewHonest(d.view, d.link)
  {
    ReportPhysical(c, r);
    if r.OnConfirm? && r.launch.Ok? {
      assert AwaitConfirm(r.epoch) in c.inflight && WritesPhysical(AwaitConfirm(r.epoch));
    } else {
      ReportConnects(c.view, r);
    }
  }

  lemma HearKeeps(c: Controller, kept: set<Id>, r: Report)
    requires Inv(c, kept) && Enabled(c, Hear(r)) && Balanced(c, kept, Hear(r))
    ensures Inv(Reported(c, r), KeptAfter(c, kept, Hear(r)))
  {
    HearKeepsQueue(c, kept, r);
    HearKeepsView(c, kept, r);
    LiveMoves(c, Hear(r));
  }

  /** The operation in progress moves on, or is done. */
  ghost predicate MovesOn(r: Running, s: Running) {
    s.Quiet? || s.DroppingSuperseded? || (HasOp(r) && HasOp(s) && s.op == r.op)
  }

  lemma WorkMovesOn(l: Link, s: QueueStep, current: bool)
    requires Awaited(l.running, l.queue != [], s) && !s.OnStartOp?
    ensures var m := WorkedLink(l, s, current); m.queue == l.queue && MovesOn(l.running, m.running)
  {
  }

  lemma MoveKeepsQueue(queue: seq<Op>, r: Running, s: Running, inflight: set<Await>, epoch: nat)
    requires QueueOrdered(queue, r, epoch) && EpochsApart(queue, r, inflight, epoch) && MovesOn(r, s)
    ensures QueueOrdered(queue, s, epoch) && EpochsApart(queue, s, inflight, epoch)
  {
  }

  /** While a current operation runs, nothing waits behind it. */
  lemma CurrentRunsAlone(l: Link, epoch: nat)
    requires QueueOrdered(l.queue, l.running, epoch) && HasOp(l.running)
    ensures l.queue != [] ==> l.running.op.epoch < l.queue[0].epoch <= epoch
  {
  }

  /** Only the last step of a current launch shows "connected", and it names the physical id. */
  lemma WorkConnects(v: View, l: Link, s: QueueStep)
    requires Awaited(l.running, l.queue != [], s) && !v.phase.Connected?
    requires l.running.DroppingPrevious? ==> l.physical == Some(l.running.launch)
    ensures var w, m := WorkedView(v, l, s), WorkedLink(l, s, true);
            w.phase.Connected? ==> HasOp(l.running) && m.running.Quiet? && m.physical.Some? && w.active == m.physical
  {
  }

  lemma SwitchStarts(c: Controller, s: QueueStep)
    requires Enabled(c, Work(s)) && SwitchHolds(c.link, c.epoch, c.disposed)
    ensures SwitchHolds(Worked(c, s).link, c.epoch, c.disposed)
  {
  }

  lemma StartKeeps(c: Controller, kept: set<Id>)
    requires Inv(c, kept) && Enabled(c, Work(OnStartOp)) && Balanced(c, kept, Work(OnStartOp))
    ensures Inv(Worked(c, OnStartOp), KeptAfter(c, kept, Work(OnStartOp)))
  {
    var d := Worked(c, OnStartOp);
    LiveMoves(c, Work(OnStartOp));
    assert forall i :: 0 <= i < |d.link.queue| ==> d.link.queue[i] == c.link.queue[i + 1];
  }

  lemma WorkKeepsView(c: Controller, kept: set<Id>, s: QueueStep)
    requires Inv(c, kept) && Enabled(c, Work(s)) && LeavesShown(c, Work(s)) && !s.OnStartOp?
    ensures ViewHonest(Worked(c, s).view, Worked(c, s).link)
    ensures Settled(Worked(c, s).view, Worked(c, s).link, c.epoch, c.disposed)
  {
    var current := WorkCurrent(c, s);
    WorkMovesOn(c.link, s, current);
    if HasOp(c.link.running) {
      CurrentRunsAlone(c.link, c.epoch);
    }
    if current {
      WorkConnects(c.view, c.link, s);
    }
  }

  lemma WorkKeeps(c: Controller, kept: set<Id>, s: QueueStep)
    requires Inv(c, kept) && Enabled(c, Work(s)) && Benign(c, kept, Work(s))
    ensures Inv(Worked(c, s), KeptAfter(c, kept, Work(s)))
  {
    if s.OnStartOp? {
      StartKeeps(c, kept);
    } else {
      WorkMovesOn(c.link, s, WorkCurrent(c, s));
      MoveKeepsQueue(c.link.queue, c.link.running, Worked(c, s).link.running, c.inflight, c.epoch);
      WorkKeepsView(c, kept, s);
      SwitchStarts(c, s);
      LiveMoves(c, Work(s));
    }
  }

  lemma StepKeeps(c: Controller, kept: set<Id>, e: Event)
    requires Inv(c, kept) && Enabled(c, e) && Benign(c, kept, e)
    ensures Inv(Step(c, e), KeptAfter(c, kept, e))
  {
    match e
    case Ask(i) => AskKeeps(c, kept, i);
    case Hear(r) => HearKeeps(c, kept, r);
    case Work(s) => WorkKeeps(c, kept, s);
  }

  /** Over every run of benign steps, whatever confirmations come late: "connected" names the
      physical id, and between operations every open session is the physical one, is being
      dropped, or was confirmed late and kept. */
  lemma {:induction false} BalancedRuns(c: Controller, kept: set<Id>, run: seq<Event>)
    requires Inv(c, kept) && Possible(c, run) && AllBenign(c, kept, run)
    ensures Inv(After(c, run), KeptOver(c, kept, run)) && Safe(After(c, run), KeptOver(c, kept, run))
    decreases |run|
  {
    if run != [] {
      StepKeeps(c, kept, run[0]);
      BalancedRuns(Step(c, run[0]), KeptAfter(c, kept, run[0]), run[1..]);
    }
  }

  /** A superseded operation keeps the screen honest exactly when it leaves the physical id, or the
      screen does not say "connected". */
  lemma ShownExact(c: Controller, kept: set<Id>, s: QueueStep)
    requires Inv(c, kept) && Enabled(c, Work(s))
    ensures ViewHonest(Worked(c, s).view, Worked(c, s).link) <==> LeavesShown(c, Work(s))
  {
  }

  /** A truthful first load starts the promise, whatever session the native side kept. */
  lemma FirstLoadSynchronises(live: set<Id>, error: Option<Notice>, l: Listing)
    requires |l.connected| == |l.trusted| && live <= Held(FirstConnected(l))
    ensures var c, load, list := Initial(live, error), Ask(DoLoad), Hear(OnList(1, Ok(l)));
            Enabled(Step(c, load), list) && Inv(Step(Step(c, load), list), {})
  {
  }

  // ---- what spans several steps ---------------------------------------------------------

  /** A reload answered in the middle of a switch: once the previous server is dropped, the books
      balance exactly when the statuses already named the server switched to (or it is owed). */
  lemma ReloadDuringSwitchExact(c: Controller, kept: set<Id>, epoch: nat, l: Listing)
    requires Enabled(c, Hear(OnList(epoch, Ok(l)))) && Current(c, epoch) && c.link.running.DroppingPrevious?
    requires c.link.running.launch != c.link.running.previous
    ensures var d := Reported(c, OnList(epoch, Ok(l)));
            && Enabled(d, Work(OnPreviousDropped(None)))
            && (Balanced(d, kept, Work(OnPreviousDropped(None))) <==>
                  FirstConnected(l) == Some(c.link.running.launch) || c.link.running.launch in Owed(c, kept))
  {
    StrayDropsStay(c, OnList(epoch, Ok(l)));
    PreviousDropExact(Reported(c, OnList(epoch, Ok(l))), kept);
  }

  /** disconnectActive captures the physical id when it is asked. During a rollback that is the
      launch being dropped, so its success forgets the server rolled back to, unless the two are
      one or it is owed. */
  lemma RollbackDisconnectExact(c: Controller, kept: set<Id>, op: Op)
    requires c.link.running.RollingBack? && c.link.queue == [op] && op.DisconnectOp? && Current(c, op.epoch)
    ensures var d := Worked(Worked(c, OnRolledBack(true)), OnStartOp);
            && Enabled(Worked(c, OnRolledBack(true)), Work(OnStartOp)) && Enabled(d, Work(OnDisconnect(None)))
            && (Balanced(d, kept, Work(OnDisconnect(None))) <==>
                  c.link.running.previous == op.id || c.link.running.previous in Owed(c, kept))
  {
    var r := Worked(c, OnRolledBack(true));
    assert r.link.queue == [op] && r.epoch == c.epoch && !r.disposed;
    var d := Worked(r, OnStartOp);
    assert d.link.running == Disconnecting(op) && d.inflight == c.inflight;
    DisconnectExact(d, kept);
  }

  /** A late confirmation goes into the debt exactly when the screen names its server and the
      controller does not hold it; otherwise it is dropped, or held already. */
  lemma LateConfirmExact(c: Controller, kept: set<Id>, epoch: nat, launch: Id)
    requires Enabled(c, Hear(OnConfirm(epoch, Ok(launch)))) && !Current(c, epoch) && launch !in kept
    ensures launch in KeptAfter(c, kept, Hear(OnConfirm(epoch, Ok(launch)))) <==>
            (c.view.target == Some(launch) || c.view.active == Some(launch)) && c.link.physical != Some(launch)
    ensures c.view.target != Some(launch) && c.view.active != Some(launch) ==>
              AwaitStrayDrop(epoch, launch) in Reported(c, OnConfirm(epoch, Ok(launch))).inflight
  {
  }

  /** Kept because it is the target of a queued connect: the debt is paid exactly when that
      connect opens the very server. */
  lemma TargetConfirmExact(c: Controller, kept: set<Id>, epoch: nat, launch: Id, answer: Reply<Launched>)
    requires Enabled(c, Hear(OnConfirm(epoch, Ok(launch)))) && !Current(c, epoch) && !c.disposed && launch !in kept
    requires c.link.running.Quiet? && c.link.queue == [ConnectOp(c.epoch, launch)] && launch !in c.link.stale
    requires c.view.target == Some(launch) && c.link.physical != Some(launch) && answer != Ok(NeedsPairing)
    ensures var confirm, start, open := Hear(OnConfirm(epoch, Ok(launch))), Work(OnStartOp), Work(OnLaunch(answer));
            var a := Step(c, confirm);
            && Enabled(a, start) && Enabled(Step(a, start), open)
            && var k := KeptAfter(a, KeptAfter(c, kept, confirm), start);
               (launch !in KeptAfter(Step(a, start), k, open) <==> answer == Ok(Launch(launch)))
  {
    var a := Step(c, Hear(OnConfirm(epoch, Ok(launch))));
    assert a.link.queue == [ConnectOp(c.epoch, launch)] && a.epoch == c.epoch && a.link.physical == c.link.physical;
    var b := Step(a, Work(OnStartOp));
    assert b.link.running == Launching(ConnectOp(c.epoch, launch)) && b.link.physical == c.link.physical;
  }

  // ---- runs in which a session is lost ---------------------------------------------------

  ghost predicate Reachable(start: Controller, c: Controller) {
    exists run :: Possible(start, run) && After(start, run) == c
  }

  lemma ReachNext(start: Controller, c: Controller, e: Event)
    requires Reachable(start, c) && Enabled(c, e)
    ensures Reachable(start, Step(c, e))
  {
    var run :| Possible(start, run) && After(start, run) == c;
    RunThenStep(start, run, e);
  }

  predicate Stands(c: Controller, link: Link, epoch: nat) {
    c.link == link && c.epoch == epoch && !c.disposed && c.inflight == {}
  }

  /** A is open, and both servers are saved. */
  lemma Loaded(a: Id, b: Id) returns (c: Controller)
    requires a != b
    ensures Reachable(Initial({a}, None), c) && Stands(c, Link(Some(a), [], Quiet, {}, {a}), 1)
    ensures ConnectVerdict(c.view.trusted, b).Accepted?
  {
    var start := Initial({a}, None);
    var saved := Listing([Connection(a, a, Active, false, true), Connection(b, b, Active, false, true)], [true, false]);
    assert Possible(start, []) && After(start, []) == start;
    ReachNext(start, start, Ask(DoLoad));
    var asked := Step(start, Ask(DoLoad));
    assert FirstConnected(saved) == Some(a);
    ReachNext(start, asked, Hear(OnList(1, Ok(saved))));
    c := Step(asked, Hear(OnList(1, Ok(saved))));
    assert c.view.trusted == saved.trusted && saved.trusted[1..][0].id == b;
  }

  /** The person switches to B, which opens. */
  lemma SwitchOpens(a: Id, b: Id) returns (c: Controller)
    requires a != b
    ensures Reachable(Initial({a}, None), c)
    ensures Stands(c, Link(Some(b), [], DroppingPrevious(ConnectOp(2, b), b, a), {}, {a, b}), 2)
  {
    var start := Initial({a}, None);
    var loaded := Loaded(a, b);
    ReachNext(start, loaded, Ask(DoConnect(b)));
    var asked := Step(loaded, Ask(DoConnect(b)));
    assert Stands(asked, Link(Some(a), [ConnectOp(2, b)], Quiet, {}, {a}), 2);
    ReachNext(start, asked, Work(OnStartOp));
    var started := Step(asked, Work(OnStartOp));
    assert Stands(started, Link(Some(a), [], Launching(ConnectOp(2, b)), {}, {a}), 2);
    ReachNext(start, started, Work(OnLaunch(Ok(Launch(b)))));
    c := Step(started, Work(OnLaunch(Ok(Launch(b)))));
  }

  /** A cannot be dropped, and the person asks to disconnect while B is dropped again. */
  lemma DisconnectAsked(a: Id, b: Id, cause: Cause) returns (c: Controller)
    requires a != b
    ensures Reachable(Initial({a}, None), c)
    ensures Stands(c, Link(Some(b), [DisconnectOp(3, b)], RollingBack(ConnectOp(2, b), b, a, cause), {}, {a, b}), 3)
  {
    var start := Initial({a}, None);
    var switched := SwitchOpens(a, b);
    ReachNext(start, switched, Work(OnPreviousDropped(Some(cause))));
    var rolling := Step(switched, Work(OnPreviousDropped(Some(cause))));
    assert Stands(rolling, Link(Some(b), [], RollingBack(ConnectOp(2, b), b, a, cause), {}, {a, b}), 2);
    ReachNext(start, rolling, Ask(DoDisconnectActive));
    c := Step(rolling, Ask(DoDisconnectActive));
  }

  /** From the start, with every disconnect succeeding but the one of A: A stays open and the
      controller has forgotten it. */
  lemma RollbackLosesDisconnect(a: Id, b: Id, cause: Cause) returns (c: Controller)
    requires a != b
    ensures Reachable(Initial({a}, None), c) && c.link == Link(None, [], Quiet, {}, {a}) && c.inflight == {} && !NothingStray(c, {})
  {
    var start := Initial({a}, None);
    var rolling := DisconnectAsked(a, b, cause);
    ReachNext(start, rolling, Work(OnRolledBack(true)));
    var back := Step(rolling, Work(OnRolledBack(true)));
    assert Stands(back, Link(Some(a), [DisconnectOp(3, b)], Quiet, {}, {a}), 3);
    ReachNext(start, back, Work(OnStartOp));
    var started := Step(back, Work(OnStartOp));
    assert Stands(started, Link(Some(a), [], Disconnecting(DisconnectOp(3, b)), {}, {a}), 3);
    ReachNext(start, started, Work(OnDisconnect(None)));
    c := Step(started, Work(OnDisconnect(None)));
    assert a in c.link.live;
  }

  /** A pairing with b waits for its answer, and b is saved. */
  lemma Confirming(b: Id) returns (c: Controller)
    ensures Reachable(Initial({}, None), c) && c.link == Link(None, [], Quiet, {}, {})
    ensures c.epoch == 3 && !c.disposed && c.inflight == {AwaitConfirm(3)} && ConnectVerdict(c.view.trusted, b).Accepted?
  {
    var start := Initial({}, None);
    var saved := Listing([Connection(b, b, Active, false, true)], [false]);
    assert Possible(start, []) && After(start, []) == start;
    ReachNext(start, start, Ask(DoLoad));
    var c1 := Step(start, Ask(DoLoad));
    assert FirstConnected(saved) == None;
    ReachNext(start, c1, Hear(OnList(1, Ok(saved))));
    var c2 := Step(c1, Hear(OnList(1, Ok(saved))));
    assert c2.view.trusted == saved.trusted && c2.inflight == {} && c2.epoch == 1;
    c := AttemptShown(start, c2);
    ReachNext(start, c, Ask(DoConfirmPairing));
    c := Step(c, Ask(DoConfirmPairing));
  }

  /** From a quiet controller, a scanned pairing gets as far as its attempt. */
  lemma AttemptShown(start: Controller, c: Controller) returns (d: Controller)
    requires Reachable(start, c) && !c.disposed && c.inflight == {} && c.view.attempt.None? && c.cancelled == {}
    ensures Reachable(start, d) && d.link == c.link && d.epoch == c.epoch + 1 && !d.disposed && d.inflight == {}
    ensures d.view.trusted == c.view.trusted && d.view.attempt.Some?
  {
    var e := c.epoch + 1;
    ReachNext(start, c, Ask(DoBeginPairing));
    var c1 := Step(c, Ask(DoBeginPairing));
    assert c1.inflight == {AwaitTicket(e)};
    ReachNext(start, c1, Hear(OnTicket(e, Ok(()))));
    var c2 := Step(c1, Hear(OnTicket(e, Ok(()))));
    assert c2.inflight == {AwaitPairing(e)};
    ReachNext(start, c2, Hear(OnPairing(e, Ok(Attempt(0, false)))));
    d := Step(c2, Hear(OnPairing(e, Ok(Attempt(0, false)))));
  }

  /** The pairing is overtaken by a connect to the same server, its late confirmation is kept as
      that connect's target, and the connect fails: b stays open, nothing is in flight, no
      disconnect was ever called, and the controller holds no id. */
  lemma LateConfirmStrays(b: Id, cause: Cause) returns (c: Controller)
    ensures Reachable(Initial({}, None), c)
    ensures c.link == Link(None, [], Quiet, {}, {b}) && c.inflight == {} && !NothingStray(c, {}) && NothingStray(c, {b})
  {
    var start := Initial({}, None);
    var confirming := Confirming(b);
    ReachNext(start, confirming, Ask(DoConnect(b)));
    var asked := Step(confirming, Ask(DoConnect(b)));
    assert asked.link == Link(None, [ConnectOp(4, b)], Quiet, {}, {}) && asked.view.target == Some(b) && asked.epoch == 4;
    ReachNext(start, asked, Hear(OnConfirm(3, Ok(b))));
    var late := Step(asked, Hear(OnConfirm(3, Ok(b))));
    assert late.link == Link(None, [ConnectOp(4, b)], Quiet, {}, {b}) && late.inflight == {};
    ReachNext(start, late, Work(OnStartOp));
    var launching := Step(late, Work(OnStartOp));
    assert launching.link == Link(None, [], Launching(ConnectOp(4, b)), {}, {b});
    ReachNext(start, launching, Work(OnLaunch(Failed(cause))));
    c := Step(launching, Work(OnLaunch(Failed(cause))));
    assert b in c.link.live;
  }
}
