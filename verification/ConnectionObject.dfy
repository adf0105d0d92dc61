/**
  The connection controller as the object the phone runs, where it touches the physical
  connection: its private fields changed step by step. Each method is one stretch of the source
  between two awaits; one that ends at an await leaves its continuation in `running` or
  `inflight`. `Valid` is the invariant of ConnectionRuns, which every calm call keeps. The
  handlers that change only the screen stay with the model.
 */
module ConnectionObject {
  import opened Prelude
  import opened ConnectionModel
  import opened ConnectionSafety
  import opened ConnectionRuns

  class ConnectionController {
    var state: View
    var epoch: nat
    var physicalActiveConnectionId: Option<Id>
    var connectionQueue: seq<Op>
    var running: Running
    var staleLaunches: set<Id>
    var discoverySession: Option<nat>
    var disposed: bool
    /** The environment: calls under way, and what the native side holds. */
    ghost var inflight: set<Await>
    ghost var live: set<Id>
    ghost var browsers: set<nat>
    ghost var cancelled: set<nat>

    ghost function Model(): Controller
      reads this
    {
      Controller(state, epoch, disposed,
                 Link(physicalActiveConnectionId, connectionQueue, running, staleLaunches, live),
                 Browser(discoverySession, browsers), inflight, cancelled)
    }

    ghost predicate Valid()
      reads this
      ensures Valid() ==> Safe(Model(), {})
    {
      Orderly(Model())
    }

    /** The call was the step `e` of the model. */
    twostate predicate Took(e: Event)
      reads this
    {
      Enabled(old(Model()), e) && Model() == Step(old(Model()), e)
    }

    /** Whichever method was called, it kept the promise if the call was a calm one. */
    twostate lemma StaysValid(e: Event)
      requires old(Valid()) && Took(e) && Calm(old(Model()), e)
      ensures Valid()
    {
      CalmKeeps(old(Model()), e);
    }

    constructor (ghost sessions: set<Id>, initialError: Option<Notice>)
      ensures Model() == Initial(sessions, initialError)
    {
      state := View(Idle, 0, [], [], None, None, None, None, initialError);
      epoch, disposed := 0, false;
      physicalActiveConnectionId, connectionQueue, running, staleLaunches := None, [], Quiet, {};
      discoverySession, inflight := None, {};
      live, browsers, cancelled := sessions, {}, {};
    }

    // ---- private helpers -----------------------------------------------------------

    method Set(v: View)
      modifies this
      ensures Model() == old(Model()).(view := if disposed then old(state) else v)
    {
      if !disposed {
        state := v;
      }
    }

    /** Take the next epoch, stop discovery and show `v`, the reset view with the intent's patch. */
    method Intent(v: View) returns (current: nat)
      requires !DiscoveryActive(v.phase)
      modifies this
      ensures current == old(epoch) + 1
      ensures Model() == old(Model()).(epoch := current, browser := Stopped(old(Model()).browser),
                                       view := if disposed then old(state) else v)
    {
      if discoverySession.Some? {
        browsers := browsers - {discoverySession.value};
        discoverySession := None;
      }
      epoch := epoch + 1;
      current := epoch;
      Set(v);
    }

    /** An intent with a queued operation. */
    method QueueIntent(v: View, op: Op)
      requires !DiscoveryActive(v.phase)
      modifies this
      ensures Model() == old(Model()).(epoch := old(epoch) + 1, browser := Stopped(old(Model()).browser),
                                       view := if disposed then old(state) else v,
                                       link := old(Model()).link.(queue := old(connectionQueue) + [op]))
    {
      var _ := Intent(v);
      connectionQueue := connectionQueue + [op];
    }

    predicate IsCurrent(e: nat)
      reads this
    {
      !disposed && e == epoch
    }

    /** A catch block; `target` is what it leaves as target. */
    method ShowFailure(e: nat, cause: Cause, fallback: Phase, target: Option<Id>)
      modifies this
      ensures Model() == old(Model()).(
                view := if IsCurrent(e) && cause.code.Some? then Failure(old(state), cause, fallback).(target := target)
                        else old(state))
    {
      if IsCurrent(e) && cause.code.Some? {
        Set(state.(phase := FailurePhase(cause.code.value, fallback), target := target,
                   error := Some(ErrorText(cause.code.value, cause.message))));
      }
    }

    // ---- public operations ---------------------------------------------------------

    method LoadTrustedConnections()
      modifies this
      ensures Took(Ask(DoLoad))
    {
      var e := Intent(Reset(state, LoadingTrustedConnections, epoch + 1));
      inflight := inflight + {AwaitList(e)};
    }

    method ConfirmPairing()
      modifies this
      ensures Took(Ask(DoConfirmPairing))
    {
      if state.attempt.None? {
        return;
      }
      var e := Intent(Reset(state, AwaitingHostApproval, epoch + 1));
      inflight := inflight + {AwaitConfirm(e)};
    }

    method CheckConnection(id: Id) returns (v: Verdict)
      ensures v == ConnectVerdict(state.trusted, id)
    {
      var connection := Find(state.trusted, id);
      if connection.None? {
        return Refused(FatalError, None, Some(UnknownConnection));
      }
      if connection.value.revoked || connection.value.pairingState.RevokedPairing? {
        return Refused(Revoked, Some(id), None);
      }
      if !connection.value.hasSecureIdentity {
        return Refused(IdentityMismatch, Some(id), None);
      }
      if connection.value.pairingState.Prepared? {
        return Refused(PairingRejected, Some(id), Some(ResumePairingFirst));
      }
      return Accepted;
    }

    method Connect(id: Id)
      modifies this
      ensures Took(Ask(DoConnect(id)))
    {
      var verdict := CheckConnection(id);
      if verdict.Refused? {
        var _ := Intent(RefusedView(state, verdict, epoch + 1));
        return;
      }
      var switching := physicalActiveConnectionId.Some? && physicalActiveConnectionId != Some(id);
      QueueIntent(Reset(state, if switching then Switching else Reconnecting, epoch + 1).(target := Some(id)),
                  ConnectOp(epoch + 1, id));
    }

    method LaunchStalled(id: Id)
      modifies this
      ensures Took(Ask(DoLaunchStalled(id)))
    {
      if !state.phase.Connected? || state.active != Some(id) {
        return;
      }
      staleLaunches := staleLaunches + {id};
      var _ := Intent(Reset(state, Unreachable, epoch + 1).(active := None, error := Some(ReconnectNeeded)));
    }

    method RecoverPrepared(id: Id)
      modifies this
      ensures Took(Ask(DoRecoverPrepared(id)))
    {
      var connection := Find(state.trusted, id);
      if connection.None? || !connection.value.pairingState.Prepared? {
        return;
      }
      if !connection.value.hasSecureIdentity {
        var _ := Intent(Reset(state, IdentityMismatch, epoch + 1).(target := Some(id)));
        return;
      }
      QueueIntent(Reset(state, Recovering, epoch + 1).(target := Some(id)), RecoverOp(epoch + 1, id));
    }

    method DisconnectActive()
      modifies this
      ensures Took(Ask(DoDisconnectActive))
    {
      var id := physicalActiveConnectionId;
      var e := Intent(Reset(state, Idle, epoch + 1));
      if id.Some? {
        connectionQueue := connectionQueue + [DisconnectOp(e, id.value)];
      }
    }

    method Forget(id: Id)
      modifies this
      ensures Took(Ask(DoForget(id)))
    {
      QueueIntent(Reset(state, LoadingTrustedConnections, epoch + 1).(target := Some(id)), ForgetOp(epoch + 1, id));
    }

    // ---- continuations outside the queue ---------------------------------------------

    method OnTrustedList(e: nat, r: Reply<Listing>)
      requires Heard(Model(), OnList(e, r))
      modifies this
      ensures Took(Hear(OnList(e, r)))
    {
      inflight := inflight - {AwaitList(e)};
      match r {
        case Ok(l) =>
          if !IsCurrent(e) {
            return;
          }
          var active := FirstConnected(l);
          physicalActiveConnectionId := active;
          Set(state.(phase := Idle, trusted := l.trusted, active := active));
        case Failed(cause) => ShowFailure(e, cause, FatalError, state.target);
      }
    }

    method OnConfirmed(e: nat, r: Reply<Id>)
      requires Heard(Model(), OnConfirm(e, r))
      modifies this
      ensures Took(Hear(OnConfirm(e, r)))
    {
      inflight := inflight - {AwaitConfirm(e)};
      match r {
        case Ok(launch) =>
          live := live + {launch};
          if !IsCurrent(e) {
            if state.target != Some(launch) && state.active != Some(launch) {
              inflight := inflight + {AwaitStrayDrop(e, launch)};
            }
            return;
          }
          physicalActiveConnectionId := Some(launch);
          Set(state.(phase := Connected, active := Some(launch), attempt := None));
        case Failed(cause) => ShowFailure(e, cause, PairingRejected, state.target);
      }
    }

    // ---- the connection queue ----------------------------------------------------------

    method StartOperation()
      requires Enabled(Model(), Work(OnStartOp))
      modifies this
      ensures Took(Work(OnStartOp))
    {
      var op := connectionQueue[0];
      connectionQueue := connectionQueue[1..];
      if !IsCurrent(op.epoch) {
        return;
      }
      if op.DisconnectOp? {
        running := Disconnecting(op);
      } else if op.ForgetOp? {
        running := Forgetting(op);
      } else if op.id in staleLaunches {
        staleLaunches := staleLaunches - {op.id};
        running := DroppingStale(op);
      } else {
        running := Launching(op);
      }
    }

    /** The two disconnects whose failure is swallowed: of a stale launch, before another is asked
        for, and of a superseded one. */
    method LaunchDropped(ok: bool)
      requires running.DroppingStale? || running.DroppingSuperseded?
      modifies this
      ensures Took(Work(if old(running).DroppingStale? then OnStaleDropped(ok) else OnSupersededDropped(ok)))
    {
      var id := if running.DroppingStale? then running.op.id else running.launch;
      live := Dropped(live, id, ok);
      if physicalActiveConnectionId == Some(id) {
        physicalActiveConnectionId := None;
      }
      running := if running.DroppingStale? && IsCurrent(running.op.epoch) then Launching(running.op) else Quiet;
    }

    /** activateLaunch up to its first await. */
    method ActivateLaunch(op: Op, launch: Id)
      modifies this
      ensures Model() == old(Model()).(
                link := Activate(old(Model()).link, op, launch, IsCurrent(op.epoch)),
                view := if IsCurrent(op.epoch) && running.Quiet? then ConnectedView(old(state), launch) else old(state))
    {
      var previous := physicalActiveConnectionId;
      if !IsCurrent(op.epoch) {
        running := DroppingSuperseded(launch);
        return;
      }
      physicalActiveConnectionId := Some(launch);
      if previous.Some? && previous.value != launch {
        running := DroppingPrevious(op, launch, previous.value);
        return;
      }
      Set(state.(phase := Connected, active := Some(launch), target := None));
      running := Quiet;
    }

    method LaunchAnswered(r: Reply<Launched>)
      requires Enabled(Model(), Work(OnLaunch(r)))
      modifies this
      ensures Took(Work(OnLaunch(r)))
    {
      var op := running.op;
      match r {
        case Ok(Launch(launch)) =>
          live := live + {launch};
          ActivateLaunch(op, launch);
        case Ok(NeedsPairing) =>
          if IsCurrent(op.epoch) {
            Set(state.(phase := Idle, trusted := Without(state.trusted, op.id), target := None, error := Some(PairAgain)));
          }
          running := Quiet;
        case Failed(cause) =>
          ShowFailure(op.epoch, cause, Unreachable, None);
          running := Quiet;
      }
    }

    method PreviousDropped(failure: Option<Cause>)
      requires Enabled(Model(), Work(OnPreviousDropped(failure)))
      modifies this
      ensures Took(Work(OnPreviousDropped(failure)))
    {
      var DroppingPrevious(op, launch, previous) := running;
      if failure.Some? {
        running := RollingBack(op, launch, previous, failure.value);
        return;
      }
      live := live - {previous};
      running := Quiet;
      if IsCurrent(op.epoch) {
        Set(state.(phase := Connected, active := Some(launch), target := None));
      }
    }

    method RolledBack(ok: bool)
      requires Enabled(Model(), Work(OnRolledBack(ok)))
      modifies this
      ensures Took(Work(OnRolledBack(ok)))
    {
      var RollingBack(op, launch, previous, cause) := running;
      live := Dropped(live, launch, ok);
      physicalActiveConnectionId := Some(previous);
      ShowFailure(op.epoch, cause, Unreachable, None);
      running := Quiet;
    }

    method DisconnectAnswered(failure: Option<Cause>)
      requires Enabled(Model(), Work(OnDisconnect(failure)))
      modifies this
      ensures Took(Work(OnDisconnect(failure)))
    {
      var op := running.op;
      running := Quiet;
      match failure {
        case None =>
          live := live - {op.id};
          physicalActiveConnectionId := None;
          if IsCurrent(op.epoch) {
            Set(state.(active := None));
          }
        case Some(cause) => ShowFailure(op.epoch, cause, Unreachable, state.target);
      }
    }

    method ForgetAnswered(failure: Option<Cause>)
      requires Enabled(Model(), Work(OnForget(failure)))
      modifies this
      ensures Took(Work(OnForget(failure)))
    {
      var op := running.op;
      running := Quiet;
      match failure {
        case None =>
          live := live - {op.id};
          if physicalActiveConnectionId == Some(op.id) {
            physicalActiveConnectionId := None;
          }
          if IsCurrent(op.epoch) {
            Set(state.(phase := Idle, trusted := Without(state.trusted, op.id),
                       active := if state.active == Some(op.id) then None else state.active, target := None));
          }
        case Some(cause) => ShowFailure(op.epoch, cause, FatalError, None);
      }
    }
  }
}
