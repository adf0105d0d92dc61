/**
  What a failure shows. The two helpers that read a rejection call each other for ever when it
  carries no string `code`, so the handler that asked never patches the screen: which screens
  that strands, and for how long.
 */
module ConnectionFailures {
  import opened Prelude
  import opened ConnectionModel
  import opened ConnectionContinuations

  /** The rejection a continuation would show. */
  function FailureOf(c: Controller, e: Event): Option<Cause>
    requires Enabled(c, e)
  {
    match e
    case Hear(OnList(_, Failed(cause))) => Some(cause)
    case Hear(OnDiscovery(_, Failed(cause))) => Some(cause)
    case Hear(OnNumeric(_, _, Failed(cause))) => Some(cause)
    case Hear(OnTicket(_, Failed(cause))) => Some(cause)
    case Hear(OnPairing(_, Failed(cause))) => Some(cause)
    case Hear(OnConfirm(_, Failed(cause))) => Some(cause)
    case Hear(OnCancelReport(_, failure)) => failure
    case Hear(DoFailQrScan(_, cause)) => Some(cause)
    case Work(OnLaunch(Failed(cause))) => Some(cause)
    case Work(OnRolledBack(_)) => Some(c.link.running.cause)
    case Work(OnDisconnect(failure)) => failure
    case Work(OnForget(failure)) => failure
    case _ => None
  }

  /** A current failure leaves the view as it was exactly when its cause carries no code (or the
      view already said so); with a code, its text is shown. */
  lemma FailureShownExact(c: Controller, e: Event)
    requires Enabled(c, e) && !e.Ask? && FromNewestIntent(c, e) && FailureOf(c, e).Some?
    ensures var cause, v := FailureOf(c, e).value, Step(c, e).view;
            && (cause.code.None? ==> v == c.view)
            && (cause.code.Some? ==> v.error == Some(if e.Hear? && e.report.OnDiscovery? then CodeText(cause.code.value)
                                                     else ErrorText(cause.code.value, cause.message)))
            && (c.view.error.None? ==> (v == c.view <==> cause.code.None?))
  {
  }

  // ---- what the newest intent still waits for ----------------------------------------------------

  /** A call of the newest intent, or its operation in the connection queue. */
  datatype Job = Call(call: Await) | Queued(op: Op)

  function EpochOf(a: Await): Option<nat> {
    match a
    case AwaitList(e) => Some(e)
    case AwaitDiscovery(e) => Some(e)
    case AwaitNumeric(e, _) => Some(e)
    case AwaitTicket(e) => Some(e)
    case AwaitPairing(e) => Some(e)
    case AwaitConfirm(e) => Some(e)
    case AwaitCancelReport(e) => Some(e)
    case _ => None
  }

  ghost predicate Outstanding(c: Controller, j: Job) {
    match j
    case Call(a) => a in c.inflight && EpochOf(a) == Some(c.epoch)
    case Queued(op) => op.epoch == c.epoch && (op in c.link.queue || (HasOp(c.link.running) && c.link.running.op == op))
  }

  ghost predicate NothingOutstanding(c: Controller) {
    forall j :: !Outstanding(c, j)
  }

  /** The phase the intent showed while it waits. */
  predicate Fits(p: Phase, j: Job) {
    match j
    case Call(AwaitList(_)) => p.LoadingTrustedConnections?
    case Call(AwaitDiscovery(_)) => DiscoveryActive(p) || p.DiscoveryPermissionRequired? || p.FatalError?
    case Call(AwaitNumeric(_, _)) => p.NumericCodeValidating?
    case Call(AwaitTicket(_)) => p.ValidatingPairing?
    case Call(AwaitPairing(_)) => p.PreparingPairing?
    case Call(AwaitConfirm(_)) => p.AwaitingHostApproval?
    case Call(_) => p.Idle?
    case Queued(ConnectOp(_, _)) => p.Switching? || p.Reconnecting?
    case Queued(RecoverOp(_, _)) => p.Recovering?
    case Queued(ForgetOp(_, _)) => p.LoadingTrustedConnections?
    case Queued(DisconnectOp(_, _)) => p.Idle?
  }

  /** The screens that lock their buttons. */
  predicate Busy(p: Phase) {
    p.LoadingTrustedConnections? || p.PreparingPairing? || p.ValidatingPairing? || p.Pairing? || p.AwaitingHostApproval?
    || p.Switching? || p.Reconnecting? || p.Recovering? || p.NumericCodeValidating?
  }

  /** Epochs are handed out in order, and operations wait in that order. */
  ghost predicate Ordered(c: Controller) {
    && (forall a :: a in c.inflight && EpochOf(a).Some? ==> EpochOf(a).value <= c.epoch)
    && (forall i :: 0 <= i < |c.link.queue| ==> c.link.queue[i].epoch <= c.epoch)
    && (forall i, j :: 0 <= i < j < |c.link.queue| ==> c.link.queue[i].epoch < c.link.queue[j].epoch)
    && (HasOp(c.link.running) ==>
          && c.link.running.op.epoch <= c.epoch
          && forall i :: 0 <= i < |c.link.queue| ==> c.link.running.op.epoch < c.link.queue[i].epoch)
  }

  /** The newest intent waits for one thing at a time, on the screen that says so. */
  ghost predicate OneJob(c: Controller) {
    && (forall j, k :: Outstanding(c, j) && Outstanding(c, k) ==> j == k)
    && (!c.disposed ==> forall j :: Outstanding(c, j) ==> Fits(c.view.phase, j))
  }

  ghost predicate Orderly(c: Controller) {
    Ordered(c) && OneJob(c)
  }

  /** The scanner and the browser report under the epoch they were started with, which no other
      call shares. */
  ghost predicate OwnEpoch(c: Controller, e: Event) {
    e.Hear? ==>
      && (e.report.DoFailQrScan? && e.report.epoch == c.epoch ==> NothingOutstanding(c))
      && (e.report.OnDiscoveryUpdate? && e.report.epoch == c.epoch ==>
            forall j :: Outstanding(c, j) ==> j == Call(AwaitDiscovery(c.epoch)))
  }

  lemma AskOrdered(c: Controller, i: Intention)
    requires Ordered(c)
    ensures Ordered(Asked(c, i))
  {
  }

  /** A new intent leaves older work behind and waits for at most one thing. */
  lemma AskOneJob(c: Controller, i: Intention)
    requires Orderly(c)
    ensures OneJob(Asked(c, i))
  {
    var d := Asked(c, i);
    if !Ignored(c, i) {
      forall j | Outstanding(d, j)
        ensures j == (if AskedOp(c, i).Some? then Queued(AskedOp(c, i).value) else Call(AskedAwait(c, i).value))
        ensures AskedOp(c, i).Some? || AskedAwait(c, i).Some?
        ensures !d.disposed ==> Fits(d.view.phase, j)
      {
        AskedIsNew(c, i, j);
      }
    } else {
      forall j ensures Outstanding(d, j) <==> Outstanding(c, j) {
      }
    }
  }

  lemma AskedIsNew(c: Controller, i: Intention, j: Job)
    requires Ordered(c) && !Ignored(c, i) && Outstanding(Asked(c, i), j)
    ensures j.Call? ==> AskedAwait(c, i) == Some(j.call) && AskedOp(c, i).None?
    ensures j.Queued? ==> AskedOp(c, i) == Some(j.op)
    ensures !Asked(c, i).disposed ==> Fits(Asked(c, i).view.phase, j)
  {
  }

  lemma HearOrdered(c: Controller, r: Report)
    requires Ordered(c) && Heard(c, r)
    ensures Ordered(Reported(c, r))
  {
  }

  /** What a report leaves outstanding was outstanding, or is the call it makes next. */
  lemma HearLeaves(c: Controller, r: Report, j: Job)
    requires Ordered(c) && Heard(c, r) && Outstanding(Reported(c, r), j)
    ensures Outstanding(c, j) || (r.OnTicket? && r.epoch == c.epoch && r.parsed.Ok? && j == Call(AwaitPairing(c.epoch)))
    ensures AwaitOf(r).Some? ==> j != Call(AwaitOf(r).value)
  {
  }

  lemma HearOneJob(c: Controller, r: Report)
    requires Orderly(c) && Heard(c, r) && OwnEpoch(c, Hear(r))
    ensures OneJob(Reported(c, r))
  {
    var d := Reported(c, r);
    forall j | Outstanding(d, j)
      ensures Outstanding(c, j) || (r.OnTicket? && r.epoch == c.epoch && r.parsed.Ok? && j == Call(AwaitPairing(c.epoch)))
      ensures AwaitOf(r).Some? ==> j != Call(AwaitOf(r).value)
    {
      HearLeaves(c, r, j);
    }
    if HasEpoch(r) && r.epoch == c.epoch && AwaitOf(r).Some? {
      assert Outstanding(c, Call(AwaitOf(r).value));
    } else if !c.disposed {
      PhaseStays(c, r);
    }
  }

  lemma PhaseStays(c: Controller, r: Report)
    requires Heard(c, r) && !(HasEpoch(r) && r.epoch == c.epoch && AwaitOf(r).Some?)
    ensures r.OnDiscoveryUpdate? || r.DoFailQrScan? || Reported(c, r).view.phase == c.view.phase
    ensures HasEpoch(r) && r.epoch != c.epoch ==> Reported(c, r).view.phase == c.view.phase
  {
  }

  lemma WorkOrdered(c: Controller, s: QueueStep)
    requires Ordered(c) && Enabled(c, Work(s))
    ensures Ordered(Worked(c, s))
  {
    var d := Worked(c, s);
    assert s.OnStartOp? ==> d.link.queue == c.link.queue[1..];
    assert !s.OnStartOp? ==> d.link.queue == c.link.queue;
  }

  /** A queue step leaves outstanding only what was, and nothing when it changes the phase. */
  lemma WorkLeaves(c: Controller, s: QueueStep, j: Job)
    requires Ordered(c) && Enabled(c, Work(s)) && Outstanding(Worked(c, s), j)
    ensures Outstanding(c, j)
    ensures Worked(c, s).view.phase == c.view.phase || (j.Queued? ==> WorkEpoch(c.link, s) != Some(c.epoch))
  {
    var d := Worked(c, s);
    if s.OnStartOp? {
      assert c.link.queue[0] in c.link.queue;
      assert d.link.queue == c.link.queue[1..];
      assert j.Queued? && j.op in d.link.queue ==> j.op in c.link.queue;
    } else {
      assert d.link.queue == c.link.queue;
    }
  }

  lemma WorkOneJob(c: Controller, s: QueueStep)
    requires Orderly(c) && Enabled(c, Work(s))
    ensures OneJob(Worked(c, s))
  {
    var d := Worked(c, s);
    forall j | Outstanding(d, j)
      ensures Outstanding(c, j)
      ensures d.view.phase == c.view.phase
    {
      WorkLeaves(c, s, j);
      if d.view.phase != c.view.phase {
        assert Outstanding(c, Queued(c.link.running.op));
      }
    }
  }

  lemma StepOrderly(c: Controller, e: Event)
    requires Orderly(c) && Enabled(c, e) && OwnEpoch(c, e)
    ensures Orderly(Step(c, e))
  {
    match e
    case Ask(i) =>
      AskOrdered(c, i);
      AskOneJob(c, i);
    case Hear(r) =>
      HearOrdered(c, r);
      HearOneJob(c, r);
    case Work(s) =>
      WorkOrdered(c, s);
      WorkOneJob(c, s);
  }

  ghost predicate OwnEpochs(c: Controller, run: seq<Event>)
    requires Possible(c, run)
    decreases |run|
  {
    run != [] ==> OwnEpoch(c, run[0]) && OwnEpochs(Step(c, run[0]), run[1..])
  }

  lemma {:induction false} AlwaysOrderly(c: Controller, run: seq<Event>)
    requires Orderly(c) && Possible(c, run) && OwnEpochs(c, run)
    ensures Orderly(After(c, run))
    decreases |run|
  {
    if run != [] {
      StepOrderly(c, run[0]);
      AlwaysOrderly(Step(c, run[0]), run[1..]);
    }
  }

  // ---- stranded screens ------------------------------------------------------------------------------

  /** Neither a person nor the scanner or the browser of the newest intent does anything. */
  ghost predicate Untouched(c: Controller, e: Event) {
    && !e.Ask?
    && (e.Hear? && (e.report.DoFailQrScan? || e.report.OnDiscoveryUpdate?) ==> e.report.epoch != c.epoch)
  }

  ghost predicate UntouchedRun(c: Controller, run: seq<Event>)
    requires Possible(c, run)
    decreases |run|
  {
    run != [] ==> Untouched(c, run[0]) && UntouchedRun(Step(c, run[0]), run[1..])
  }

  lemma IdleStep(c: Controller, e: Event)
    requires Ordered(c) && NothingOutstanding(c) && Enabled(c, e) && Untouched(c, e)
    ensures Ordered(Step(c, e)) && NothingOutstanding(Step(c, e)) && Step(c, e).epoch == c.epoch
    ensures Step(c, e).view.phase == c.view.phase && Step(c, e).view.error == c.view.error
  {
    match e {
      case Hear(r) =>
        if AwaitOf(r).Some? {
          assert !Outstanding(c, Call(AwaitOf(r).value));
        }
        assert !FromNewestIntent(c, e);
        HearOrdered(c, r);
        forall j ensures !Outstanding(Step(c, e), j) {
          if Outstanding(Step(c, e), j) {
            HearLeaves(c, r, j);
          }
        }
      case Work(s) =>
        if WorkEpoch(c.link, s).Some? {
          assert !Outstanding(c, Queued(if s.OnStartOp? then c.link.queue[0] else c.link.running.op));
        }
        assert !FromNewestIntent(c, e);
        WorkOrdered(c, s);
        forall j ensures !Outstanding(Step(c, e), j) {
          if Outstanding(Step(c, e), j) {
            WorkLeaves(c, s, j);
          }
        }
    }
    OnlyCurrentShows(c, e);
  }

  lemma {:induction false} IdleRun(c: Controller, run: seq<Event>)
    requires Ordered(c) && NothingOutstanding(c) && Possible(c, run) && UntouchedRun(c, run)
    ensures After(c, run).view.phase == c.view.phase && After(c, run).view.error == c.view.error
    decreases |run|
  {
    if run != [] {
      IdleStep(c, run[0]);
      IdleRun(Step(c, run[0]), run[1..]);
    }
  }

  /** A failure is the last word of its intent. */
  lemma FailureEndsJob(c: Controller, e: Event)
    requires Orderly(c) && Enabled(c, e) && OwnEpoch(c, e) && !e.Ask? && FromNewestIntent(c, e) && FailureOf(c, e).Some?
    ensures NothingOutstanding(Step(c, e))
  {
    match e
    case Hear(r) =>
      if AwaitOf(r).Some? {
        assert Outstanding(c, Call(AwaitOf(r).value));
      }
      forall j ensures !Outstanding(Step(c, e), j) {
        if Outstanding(Step(c, e), j) {
          HearLeaves(c, r, j);
        }
      }
    case Work(s) =>
      assert Outstanding(c, Queued(c.link.running.op));
      forall j ensures !Outstanding(Step(c, e), j) {
        if Outstanding(Step(c, e), j) {
          WorkLeaves(c, s, j);
        }
      }
  }

  /** The job a failure is about. */
  function JobOf(c: Controller, e: Event): Option<Job>
    requires Enabled(c, e)
  {
    match e
    case Hear(r) => if AwaitOf(r).Some? then Some(Call(AwaitOf(r).value)) else None
    case Work(_) => if HasOp(c.link.running) then Some(Queued(c.link.running.op)) else None
    case Ask(_) => None
  }

  /** Everything but a discovery, a cancel report and a disconnect. */
  predicate Locks(j: Job) {
    match j
    case Call(a) => !a.AwaitDiscovery? && !a.AwaitCancelReport?
    case Queued(op) => !op.DisconnectOp?
  }

  /** After a failure without a code the screen of the newest intent stays as it is, with no error
      on it, until a person asks for something else. It is a locked one exactly for a list, a
      numeric code, a ticket, a pairing, a confirmation, a connect, a recovery and a forget. */
  lemma UncodedStrands(c: Controller, before: seq<Event>, e: Event, later: seq<Event>)
    requires Possible(c, before) && Orderly(c) && OwnEpochs(c, before)
    requires Enabled(After(c, before), e) && OwnEpoch(After(c, before), e) && !e.Ask? && FromNewestIntent(After(c, before), e)
    requires FailureOf(After(c, before), e).Some? && FailureOf(After(c, before), e).value.code.None?
    requires Possible(Step(After(c, before), e), later) && UntouchedRun(Step(After(c, before), e), later)
    ensures var d := After(c, before);
            && After(Step(d, e), later).view.phase == d.view.phase
            && After(Step(d, e), later).view.error == d.view.error
            && (JobOf(d, e).Some? ==>
                  && Fits(d.view.phase, JobOf(d, e).value)
                  && (Busy(d.view.phase) <==> Locks(JobOf(d, e).value)))
  {
    var d := After(c, before);
    AlwaysOrderly(c, before);
    FailureShownExact(d, e);
    FailureEndsJob(d, e);
    StepOrderly(d, e);
    IdleRun(Step(d, e), later);
    if JobOf(d, e).Some? {
      assert Outstanding(d, JobOf(d, e).value);
    }
  }

  lemma InitialOrderly(live: set<Id>, error: Option<Notice>)
    ensures Orderly(Initial(live, error))
  {
  }
}
