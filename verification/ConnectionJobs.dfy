/**
  What the newest intent asked for is done: its call or operation stays with the controller until
  its own answer settles it, the native side is asked for the right thing, and a screen that waits
  always waits for something.
 */
module ConnectionJobs {
  import opened Prelude
  import opened ConnectionModel
  import opened ConnectionContinuations
  import opened ConnectionFailures

  // ---- a job stays until it is settled ---------------------------------------------------------

  /** A person asks for something else, or the controller is disposed. */
  predicate Supersedes(c: Controller, e: Event) {
    e.Ask? && !Ignored(c, e.intention)
  }

  /** The answer that ends a job: of its call, or the last one of its operation; a launch that
      replaces another server is followed by the disconnect of that one. */
  predicate Settles(c: Controller, e: Event, j: Job)
    requires Enabled(c, e)
  {
    match j
    case Call(a) => e.Hear? && AwaitOf(e.report) == Some(a)
    case Queued(op) =>
      e.Work? && HasOp(c.link.running) && c.link.running.op == op &&
      match e.step
      case OnLaunch(Ok(Launch(launch))) => c.link.physical.None? || c.link.physical == Some(launch)
      case OnLaunch(_) => true
      case OnPreviousDropped(failure) => failure.None?
      case OnRolledBack(_) => true
      case OnDisconnect(_) => true
      case OnForget(_) => true
      case _ => false
  }

  lemma OpStays(c: Controller, s: QueueStep, op: Op)
    requires Ordered(c) && !c.disposed && Enabled(c, Work(s)) && Outstanding(c, Queued(op)) && !Settles(c, Work(s), Queued(op))
    ensures Outstanding(Worked(c, s), Queued(op))
  {
    var d := Worked(c, s);
    if s.OnStartOp? {
      assert d.link.queue == c.link.queue[1..];
      if op != c.link.queue[0] {
        var i :| 0 <= i < |c.link.queue| && c.link.queue[i] == op;
        assert d.link.queue[i - 1] == op;
      }
    } else {
      assert d.link.queue == c.link.queue;
    }
  }

  /** Nothing but its own answer takes a job of the newest intent away, and that answer does. */
  lemma JobStays(c: Controller, e: Event, j: Job)
    requires Ordered(c) && !c.disposed && Enabled(c, e) && Outstanding(c, j) && !Supersedes(c, e)
    ensures !Settles(c, e, j) ==> Outstanding(Step(c, e), j)
    ensures Settles(c, e, j) ==> !Outstanding(Step(c, e), j)
  {
    match e
    case Ask(i) =>
    case Hear(r) =>
      if Settles(c, e, j) {
        assert NextAwait(c, r) != Some(j.call);
      }
    case Work(s) =>
      if j.Queued? {
        if !Settles(c, e, j) {
          OpStays(c, s, j.op);
        } else {
          OpEnds(c, s, j.op);
        }
      }
  }

  lemma RunsBefore(c: Controller)
    requires Ordered(c) && HasOp(c.link.running)
    ensures c.link.queue != [] ==> c.link.running.op.epoch < c.link.queue[0].epoch <= c.epoch
  {
  }

  lemma OpEnds(c: Controller, s: QueueStep, op: Op)
    requires Ordered(c) && Enabled(c, Work(s)) && Settles(c, Work(s), Queued(op)) && Outstanding(c, Queued(op))
    ensures !Outstanding(Worked(c, s), Queued(op))
  {
    assert Worked(c, s).link.queue == c.link.queue && !HasOp(Worked(c, s).link.running);
    RunsBefore(c);
  }

  ghost predicate EverSettled(c: Controller, run: seq<Event>, j: Job)
    requires Possible(c, run)
    decreases |run|
  {
    run != [] && (Settles(c, run[0], j) || EverSettled(Step(c, run[0]), run[1..], j))
  }

  ghost predicate EverSuperseded(c: Controller, run: seq<Event>)
    requires Possible(c, run)
    decreases |run|
  {
    run != [] && (Supersedes(c, run[0]) || EverSuperseded(Step(c, run[0]), run[1..]))
  }

  lemma StepOrdered(c: Controller, e: Event)
    requires Ordered(c) && Enabled(c, e)
    ensures Ordered(Step(c, e))
    ensures !Supersedes(c, e) ==> Step(c, e).disposed == c.disposed
  {
    match e
    case Ask(i) => AskOrdered(c, i);
    case Hear(r) => HearOrdered(c, r);
    case Work(s) => WorkOrdered(c, s);
  }

  /** Over every run without another intent a job waits until its own answer comes. */
  lemma {:induction false} JobUntilSettled(c: Controller, run: seq<Event>, j: Job)
    requires Ordered(c) && !c.disposed && Outstanding(c, j) && Possible(c, run) && !EverSuperseded(c, run)
    ensures Outstanding(After(c, run), j) || EverSettled(c, run, j)
    decreases |run|
  {
    if run != [] {
      JobStays(c, run[0], j);
      StepOrdered(c, run[0]);
      if !Settles(c, run[0], j) {
        JobUntilSettled(Step(c, run[0]), run[1..], j);
      }
    }
  }

  // ---- the right thing is asked of the native side -------------------------------------------------

  /** A disconnect is under way for a disconnect, a forget for a forget, and everything else for a
      connect or a recovery. */
  predicate RightWork(r: Running) {
    && (r.Disconnecting? ==> r.op.DisconnectOp?)
    && (r.Forgetting? ==> r.op.ForgetOp?)
    && (HasOp(r) && !r.Disconnecting? && !r.Forgetting? ==> r.op.ConnectOp? || r.op.RecoverOp?)
  }

  /** The operation of the newest intent is for the server the screen aims at. */
  ghost predicate Aims(c: Controller) {
    !c.disposed ==> forall j :: Outstanding(c, j) && j.Queued? && !j.op.DisconnectOp? ==> c.view.target == Some(j.op.id)
  }

  lemma RightStep(c: Controller, s: QueueStep)
    requires RightWork(c.link.running) && Enabled(c, Work(s))
    ensures RightWork(Worked(c, s).link.running)
  {
  }

  lemma TargetMoves(c: Controller, r: Report)
    requires Heard(c, r)
    ensures Reported(c, r).view.target == c.view.target
  {
  }

  lemma AskAims(c: Controller, i: Intention)
    requires Ordered(c) && Aims(c)
    ensures Aims(Asked(c, i))
  {
    var d := Asked(c, i);
    if Ignored(c, i) {
      forall j ensures Outstanding(d, j) <==> Outstanding(c, j) {
      }
    } else {
      forall j | Outstanding(d, j) && j.Queued? && !j.op.DisconnectOp? && !d.disposed ensures d.view.target == Some(j.op.id) {
        AskedIsNew(c, i, j);
      }
    }
  }

  lemma WorkAims(c: Controller, s: QueueStep)
    requires Orderly(c) && Aims(c) && Enabled(c, Work(s))
    ensures Aims(Worked(c, s))
  {
    var d := Worked(c, s);
    forall j | Outstanding(d, j) && j.Queued? && !j.op.DisconnectOp? && !d.disposed ensures d.view.target == Some(j.op.id) {
      WorkLeaves(c, s, j);
      if Settles(c, Work(s), j) {
        OpEnds(c, s, j.op);
      } else if WorkCurrent(c, s) {
        var k := Queued(if s.OnStartOp? then c.link.queue[0] else c.link.running.op);
        assert Outstanding(c, k);
        assert k == j;
      }
    }
  }

  lemma AimsStep(c: Controller, e: Event)
    requires Orderly(c) && Aims(c) && Enabled(c, e)
    ensures Aims(Step(c, e))
  {
    match e
    case Ask(i) => AskAims(c, i);
    case Work(s) => WorkAims(c, s);
    case Hear(r) =>
      TargetMoves(c, r);
      forall j | Outstanding(Reported(c, r), j) && j.Queued? ensures Outstanding(c, j) {
        HearLeaves(c, r, j);
      }
  }

  // ---- a screen that waits waits for something -----------------------------------------------------

  /** The locked screens but the one that waits for a person to compare phrases. */
  predicate Waiting(p: Phase) {
    Busy(p) && !p.Pairing?
  }

  ghost predicate WaitsForJob(c: Controller) {
    !c.disposed && Waiting(c.view.phase) ==> exists j :: Outstanding(c, j)
  }

  /** A failure without a code, which nothing shows. */
  predicate Unshown(c: Controller, e: Event)
    requires Enabled(c, e)
  {
    FailureOf(c, e).Some? && FailureOf(c, e).value.code.None?
  }

  lemma AskWaits(c: Controller, i: Intention)
    requires WaitsForJob(c)
    ensures WaitsForJob(Asked(c, i))
  {
    var d := Asked(c, i);
    if !d.disposed && Waiting(d.view.phase) {
      if Ignored(c, i) {
        var j :| Outstanding(c, j);
        assert Outstanding(d, j);
      } else if AskedOp(c, i).Some? {
        assert d.link.queue[|c.link.queue|] == AskedOp(c, i).value;
        assert Outstanding(d, Queued(AskedOp(c, i).value));
      } else {
        assert Outstanding(d, Call(AskedAwait(c, i).value));
      }
    }
  }

  lemma FailureDoesNotWait(code: Code, fallback: Phase)
    requires !Waiting(fallback)
    ensures !Waiting(FailurePhase(code, fallback))
  {
  }

  /** A current answer of a call ends the waiting, or begins the next call. */
  lemma AnswerEndsWaiting(c: Controller, r: Report)
    requires Orderly(c) && !c.disposed && Heard(c, r) && HasEpoch(r) && r.epoch == c.epoch && AwaitOf(r).Some?
    requires !Unshown(c, Hear(r))
    ensures Waiting(Reported(c, r).view.phase) ==> r.OnTicket? && r.parsed.Ok?
  {
    assert Outstanding(c, Call(AwaitOf(r).value));
    assert Fits(c.view.phase, Call(AwaitOf(r).value));
  }

  lemma HearWaits(c: Controller, r: Report)
    requires Orderly(c) && WaitsForJob(c) && Enabled(c, Hear(r)) && !Unshown(c, Hear(r))
    ensures WaitsForJob(Reported(c, r))
  {
    var d := Reported(c, r);
    if !d.disposed && Waiting(d.view.phase) {
      if HasEpoch(r) && r.epoch == c.epoch && AwaitOf(r).Some? {
        AnswerEndsWaiting(c, r);
        assert Outstanding(d, Call(AwaitPairing(c.epoch)));
      } else {
        PhaseStays(c, r);
        var j :| Outstanding(c, j);
        JobStays(c, Hear(r), j);
      }
    }
  }

  /** The last answer of a current operation ends the waiting. */
  lemma OperationEndsWaiting(c: Controller, s: QueueStep, j: Job)
    requires Orderly(c) && !c.disposed && Enabled(c, Work(s)) && Outstanding(c, j) && Settles(c, Work(s), j)
    requires RightWork(c.link.running) && !Unshown(c, Work(s))
    ensures !Waiting(Worked(c, s).view.phase)
  {
    assert Fits(c.view.phase, j);
  }

  lemma WorkWaits(c: Controller, s: QueueStep)
    requires Orderly(c) && WaitsForJob(c) && RightWork(c.link.running) && Enabled(c, Work(s)) && !Unshown(c, Work(s))
    ensures WaitsForJob(Worked(c, s))
  {
    var d := Worked(c, s);
    if !d.disposed && Waiting(d.view.phase) {
      if Waiting(c.view.phase) {
        var j :| Outstanding(c, j);
        if Settles(c, Work(s), j) {
          OperationEndsWaiting(c, s, j);
        }
        JobStays(c, Work(s), j);
      } else {
        WorkNeverWaits(c, s);
      }
    }
  }

  lemma WorkNeverWaits(c: Controller, s: QueueStep)
    requires Enabled(c, Work(s)) && !Waiting(c.view.phase)
    ensures !Waiting(Worked(c, s).view.phase)
  {
  }

  /** What over every run the newest intent can rely on. */
  ghost predicate Diligent(c: Controller) {
    Orderly(c) && RightWork(c.link.running) && Aims(c) && WaitsForJob(c)
  }

  ghost predicate AllShown(c: Controller, run: seq<Event>)
    requires Possible(c, run)
    decreases |run|
  {
    run != [] ==> !Unshown(c, run[0]) && AllShown(Step(c, run[0]), run[1..])
  }

  lemma DiligentStep(c: Controller, e: Event)
    requires Diligent(c) && Enabled(c, e) && OwnEpoch(c, e) && !Unshown(c, e)
    ensures Diligent(Step(c, e))
  {
    StepOrderly(c, e);
    AimsStep(c, e);
    match e
    case Ask(i) => AskWaits(c, i);
    case Hear(r) => HearWaits(c, r);
    case Work(s) =>
      RightStep(c, s);
      WorkWaits(c, s);
  }

  /** Over every run without a failure that nothing shows: a screen that waits has a call or an
      operation outstanding, an operation is for the server aimed at, and the native side is asked
      for what the operation says. */
  lemma {:induction false} AlwaysDiligent(c: Controller, run: seq<Event>)
    requires Diligent(c) && Possible(c, run) && OwnEpochs(c, run) && AllShown(c, run)
    ensures Diligent(After(c, run))
    decreases |run|
  {
    if run != [] {
      DiligentStep(c, run[0]);
      AlwaysDiligent(Step(c, run[0]), run[1..]);
    }
  }

  lemma InitialDiligent(live: set<Id>, error: Option<Notice>)
    ensures Diligent(Initial(live, error))
  {
  }

  // ---- which servers are connected to ------------------------------------------------------------------

  /** A connect is queued exactly for a saved server that is not revoked, not half paired, and has
      a secure identity ... */
  lemma ConnectQueuedExact(c: Controller, id: Id)
    requires Ordered(c)
    ensures Outstanding(Asked(c, DoConnect(id)), Queued(ConnectOp(c.epoch + 1, id))) <==>
            var saved := Find(c.view.trusted, id);
            && saved.Some? && !saved.value.revoked && saved.value.hasSecureIdentity
            && !saved.value.pairingState.RevokedPairing? && !saved.value.pairingState.Prepared?
  {
    AskedQueues(c, DoConnect(id), ConnectOp(c.epoch + 1, id));
  }

  /** ... a recovery exactly for a half paired one that has ... */
  lemma RecoverQueuedExact(c: Controller, id: Id)
    requires Ordered(c)
    ensures Outstanding(Asked(c, DoRecoverPrepared(id)), Queued(RecoverOp(c.epoch + 1, id))) <==>
            var saved := Find(c.view.trusted, id);
            saved.Some? && saved.value.hasSecureIdentity && saved.value.pairingState.Prepared?
  {
    AskedQueues(c, DoRecoverPrepared(id), RecoverOp(c.epoch + 1, id));
  }

  /** ... and a disconnect exactly for the physical connection, a forget always. */
  lemma DropQueuedExact(c: Controller, id: Id)
    requires Ordered(c)
    ensures Outstanding(Asked(c, DoDisconnectActive), Queued(DisconnectOp(c.epoch + 1, id))) <==> c.link.physical == Some(id)
    ensures Outstanding(Asked(c, DoForget(id)), Queued(ForgetOp(c.epoch + 1, id)))
  {
    AskedQueues(c, DoDisconnectActive, DisconnectOp(c.epoch + 1, id));
    AskedQueues(c, DoForget(id), ForgetOp(c.epoch + 1, id));
  }

  lemma AskedQueues(c: Controller, i: Intention, op: Op)
    requires Ordered(c) && op.epoch == c.epoch + 1
    ensures Outstanding(Asked(c, i), Queued(op)) <==> !Ignored(c, i) && AskedOp(c, i) == Some(op)
  {
    var d := Asked(c, i);
    if !Ignored(c, i) && AskedOp(c, i) == Some(op) {
      assert d.link.queue[|c.link.queue|] == op;
    } else if !Ignored(c, i) && Outstanding(d, Queued(op)) {
      AskedIsNew(c, i, Queued(op));
    }
  }
}
