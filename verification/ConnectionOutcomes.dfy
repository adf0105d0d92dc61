/**
  What each thing a person asks for comes to when the native side answers: from the intent to the
  screen, the physical connection and the sessions behind it.
 */
module ConnectionOutcomes {
  import opened Prelude
  import opened ConnectionModel

  /** No operation runs or waits. */
  predicate AtRest(c: Controller) {
    !c.disposed && c.link.running.Quiet? && c.link.queue == []
  }

  // ---- the list and discovery ---------------------------------------------------------------------

  /** A load shows the saved servers and the first one the native side reports as connected, and
      takes that one for the physical connection. */
  lemma LoadShows(c: Controller, l: Listing)
    requires !c.disposed && |l.connected| == |l.trusted|
    ensures var e := c.epoch + 1;
            var a := Step(c, Ask(DoLoad));
            && a.view.phase.LoadingTrustedConnections? && Enabled(a, Hear(OnList(e, Ok(l))))
            && var d := Step(a, Hear(OnList(e, Ok(l))));
               && d.view.trusted == l.trusted && d.view.phase.Idle? && d.view.error.None?
               && d.view.active == d.link.physical == FirstConnected(l)
  {
  }

  lemma {:induction false} FirstConnectedExact(l: Listing, k: nat)
    requires |l.connected| == |l.trusted| && k < |l.trusted| && l.connected[k] && forall i :: 0 <= i < k ==> !l.connected[i]
    ensures FirstConnected(l) == Some(l.trusted[k].id)
    decreases k
  {
    if k > 0 {
      FirstConnectedExact(Listing(l.trusted[1..], l.connected[1..]), k - 1);
    }
  }

  lemma {:induction false} NoneConnected(l: Listing)
    requires |l.connected| == |l.trusted| && forall i :: 0 <= i < |l.connected| ==> !l.connected[i]
    ensures FirstConnected(l).None?
    decreases |l.trusted|
  {
    if l.trusted != [] {
      NoneConnected(Listing(l.trusted[1..], l.connected[1..]));
    }
  }

  /** A started browser is held, shows what it finds, and is stopped by every other intent, by the
      screen it leads to, or as it arrives when the person has gone on. */
  lemma DiscoveryShows(c: Controller, session: nat, phase: Phase, found: seq<string>, error: Option<Notice>, i: Intention)
    requires !c.disposed && session !in c.browser.running
    requires DiscoveryActive(phase) || phase.DiscoveryPermissionRequired? || phase.FatalError?
    ensures var a := Step(c, Ask(DoStartDiscovery));
            var started, update := Hear(OnDiscovery(a.epoch, Ok(session))), Hear(OnDiscoveryUpdate(a.epoch, phase, found, error));
            && a.view.phase.Discovering? && a.view.discovered == [] && Enabled(a, started)
            && var b := Step(a, started);
               && b.browser.session == Some(session) && session in b.browser.running && b.view == a.view && Enabled(b, update)
               && (!Ignored(b, i) ==> Step(b, Ask(i)).browser.session.None? && session !in Step(b, Ask(i)).browser.running)
               && var d := Step(b, update);
                  && d.view.phase == phase && d.view.discovered == found && d.view.error == error
                  && (DiscoveryActive(phase) <==> d.browser.session == Some(session))
                  && (DiscoveryActive(phase) <==> session in d.browser.running)
  {
  }

  /** A browser that could not be started shows why. */
  lemma DiscoveryFails(c: Controller, code: Code, message: string)
    requires !c.disposed
    ensures var a := Step(c, Ask(DoStartDiscovery));
            var failed := Hear(OnDiscovery(a.epoch, Failed(Cause(Some(code), message))));
            && Enabled(a, failed)
            && var v := Step(a, failed).view;
               && v.phase == (if code.DiscoveryPermissionDenied? then DiscoveryPermissionRequired else FatalError)
               && v.discovered == [] && v.error == Some(CodeText(code))
  {
  }

  // ---- pairing --------------------------------------------------------------------------------------

  predicate ShowsAttempt(v: View, a: Attempt) {
    v.attempt == Some(a) && v.phase == (if a.hasSafetyPhrase then SafetyConfirmation else Pairing) && v.error.None?
  }

  /** A code for a nearby server leads to its attempt; when it fails the server stays chosen. */
  lemma NumericPairs(c: Controller, host: string, a: Attempt, code: Code, message: string)
    requires !c.disposed && a.id !in c.cancelled
    ensures var b := Step(c, Ask(DoStartNumericEntry(host)));
            && b.view.phase.NumericCodeEntry? && b.view.numericTarget == Some(host) && b.view.attempt.None?
            && var d := Step(b, Ask(DoSubmitNumericCode));
               var good, bad := Hear(OnNumeric(d.epoch, host, Ok(a))), Hear(OnNumeric(d.epoch, host, Failed(Cause(Some(code), message))));
               && d.view.phase.NumericCodeValidating? && Enabled(d, good) && Enabled(d, bad)
               && ShowsAttempt(Step(d, good).view, a)
               && Step(d, bad).view.numericTarget == Some(host) && Step(d, bad).view.phase == FailurePhase(code, NumericCodeEntry)
  {
  }

  /** Without a chosen server a code is refused. */
  lemma NumericNeedsTarget(c: Controller)
    requires !c.disposed && c.view.numericTarget.None?
    ensures var d := Step(c, Ask(DoSubmitNumericCode));
            d.view.phase.FatalError? && d.view.error == Some(ChooseNearbyFirst) && d.inflight == c.inflight
  {
  }

  /** A scanned or pasted ticket is parsed, then paired with, then shown. */
  lemma TicketPairs(c: Controller, scan: bool, a: Attempt)
    requires !c.disposed && a.id !in c.cancelled
    ensures var start := if scan then Step(c, Ask(DoStartQrScan)) else c;
            var b := Step(start, Ask(if scan then DoAcceptQrResult(start.epoch) else DoBeginPairing));
            && (scan ==> start.view.phase.ScanningQr?)
            && b.view.phase.ValidatingPairing? && b.view.attempt.None? && Enabled(b, Hear(OnTicket(b.epoch, Ok(()))))
            && var d := Step(b, Hear(OnTicket(b.epoch, Ok(()))));
               && d.view.phase.PreparingPairing? && Enabled(d, Hear(OnPairing(b.epoch, Ok(a))))
               && ShowsAttempt(Step(d, Hear(OnPairing(b.epoch, Ok(a)))).view, a)
  {
  }

  /** A confirmed attempt ends connected to the server it opened; a cancelled one is given up. */
  lemma AttemptEnds(c: Controller, a: Attempt, launch: Id)
    requires !c.disposed && c.view.attempt == Some(a)
    ensures var b := Step(c, Ask(DoConfirmPairing));
            && b.view.phase.AwaitingHostApproval? && b.view.attempt == Some(a) && Enabled(b, Hear(OnConfirm(b.epoch, Ok(launch))))
            && var d := Step(b, Hear(OnConfirm(b.epoch, Ok(launch))));
               && d.view.phase.Connected? && d.view.active == d.link.physical == Some(launch) && d.view.attempt.None?
               && launch in d.link.live
    ensures var d := Step(c, Ask(DoCancelPairing));
            d.view.phase.Idle? && d.view.attempt.None? && a.id in d.cancelled && AwaitCancelReport(d.epoch) in d.inflight
  {
  }

  // ---- connecting -----------------------------------------------------------------------------------

  predicate ConnectedTo(c: Controller, id: Id) {
    && c.view.phase.Connected? && c.view.active == c.link.physical == Some(id) && c.view.target.None?
    && AtRest(c) && c.view.error.None?
  }

  predicate Connectable(c: Controller, id: Id) {
    AtRest(c) && ConnectVerdict(c.view.trusted, id).Accepted?
  }

  /** A connect with no other server open launches and is shown. */
  lemma ConnectCompletes(c: Controller, id: Id)
    requires Connectable(c, id) && id !in c.link.stale && (c.link.physical.None? || c.link.physical == Some(id))
    ensures var a := Step(c, Ask(DoConnect(id)));
            && a.view.phase.Reconnecting? && a.view.target == Some(id) && Enabled(a, Work(OnStartOp))
            && var b := Step(a, Work(OnStartOp));
               && b.link.running == Launching(ConnectOp(a.epoch, id)) && Enabled(b, Work(OnLaunch(Ok(Launch(id)))))
               && var d := Step(b, Work(OnLaunch(Ok(Launch(id)))));
                  ConnectedTo(d, id) && d.link.live == c.link.live + {id}
  {
  }

  /** With another one open it is dropped once the new one is, and only then is the switch shown;
      when it cannot be dropped the new one is, and the old one stays. */
  lemma SwitchCompletes(c: Controller, id: Id, previous: Id, cause: Cause)
    requires Connectable(c, id) && id !in c.link.stale && c.link.physical == Some(previous) && previous != id
    ensures var a := Step(c, Ask(DoConnect(id)));
            && a.view.phase.Switching? && a.view.target == Some(id) && Enabled(a, Work(OnStartOp))
            && var b := Step(Step(a, Work(OnStartOp)), Work(OnLaunch(Ok(Launch(id)))));
               && b.view == a.view && b.link.running == DroppingPrevious(ConnectOp(a.epoch, id), id, previous)
               && Enabled(b, Work(OnPreviousDropped(None))) && Enabled(b, Work(OnPreviousDropped(Some(cause))))
               && ConnectedTo(Step(b, Work(OnPreviousDropped(None))), id)
               && Step(b, Work(OnPreviousDropped(None))).link.live == (c.link.live + {id}) - {previous}
               && var d := Step(b, Work(OnPreviousDropped(Some(cause))));
                  && Enabled(d, Work(OnRolledBack(true)))
                  && var r := Step(d, Work(OnRolledBack(true)));
                     && r.link.physical == Some(previous) && AtRest(r) && r.link.live == (c.link.live + {id}) - {id}
                     && r.view.active == c.view.active
                     && (cause.code.Some? ==> r.view.phase == FailurePhase(cause.code.value, Unreachable) && r.view.target.None?)
  {
  }

  /** A launch that stalled is dropped before another is asked for, whatever the drop answers. */
  lemma StaleLaunchIsReplaced(c: Controller, id: Id, ok: bool)
    requires AtRest(c) && c.view.phase.Connected? && c.view.active == c.link.physical == Some(id) && ConnectVerdict(c.view.trusted, id).Accepted?
    ensures var a := Step(c, Ask(DoLaunchStalled(id)));
            && id in a.link.stale && a.view.phase.Unreachable? && a.view.active.None? && a.view.error == Some(ReconnectNeeded)
            && a.link.physical == Some(id)
            && var b := Step(Step(a, Ask(DoConnect(id))), Work(OnStartOp));
               && b.link.running == DroppingStale(ConnectOp(b.epoch, id)) && id !in b.link.stale && Enabled(b, Work(OnStaleDropped(ok)))
               && var d := Step(b, Work(OnStaleDropped(ok)));
                  && d.link.running == Launching(ConnectOp(b.epoch, id)) && d.link.physical.None?
                  && ConnectedTo(Step(d, Work(OnLaunch(Ok(Launch(id))))), id)
  {
  }

  /** The operation of a connect starts by launching, unless it has to drop a stale one first. */
  lemma ConnectStarts(c: Controller, id: Id)
    requires Connectable(c, id) && id !in c.link.stale
    ensures var b := Step(Step(c, Ask(DoConnect(id))), Work(OnStartOp));
            && !b.disposed && b.link == c.link.(queue := [], running := Launching(ConnectOp(b.epoch, id)))
            && b.view.active == c.view.active
  {
  }

  lemma LaunchFailsAt(b: Controller, id: Id, code: Code, message: string)
    requires !b.disposed && b.link.running == Launching(ConnectOp(b.epoch, id)) && b.link.queue == []
    ensures var failed := Work(OnLaunch(Failed(Cause(Some(code), message))));
            && Enabled(b, failed)
            && var d := Step(b, failed);
               && d.view.phase == FailurePhase(code, Unreachable) && d.view.error == Some(ErrorText(code, message))
               && d.view.target.None? && d.view.active == b.view.active && AtRest(d)
               && d.link.physical == b.link.physical && d.link.live == b.link.live
  {
  }

  /** A launch that fails shows why and leaves what was open. */
  lemma LaunchFails(c: Controller, id: Id, code: Code, message: string)
    requires Connectable(c, id) && id !in c.link.stale
    ensures var b := Step(Step(c, Ask(DoConnect(id))), Work(OnStartOp));
            var failed := Work(OnLaunch(Failed(Cause(Some(code), message))));
            && Enabled(b, failed)
            && var d := Step(b, failed);
               && d.view.phase == FailurePhase(code, Unreachable) && d.view.error == Some(ErrorText(code, message))
               && d.view.target.None? && d.view.active == c.view.active && AtRest(d)
               && d.link.physical == c.link.physical && d.link.live == c.link.live
  {
    ConnectStarts(c, id);
    LaunchFailsAt(Step(Step(c, Ask(DoConnect(id))), Work(OnStartOp)), id, code, message);
  }

  /** A recovery that finds the pairing gone takes the server off the list and says so. */
  lemma RecoveryForgets(c: Controller, id: Id)
    requires AtRest(c) && !Ignored(c, DoRecoverPrepared(id)) && RecoverVerdict(c.view.trusted, id).Accepted? && id !in c.link.stale
    ensures var b := Step(Step(c, Ask(DoRecoverPrepared(id))), Work(OnStartOp));
            && b.view.phase.Recovering? && Enabled(b, Work(OnLaunch(Ok(NeedsPairing))))
            && var d := Step(b, Work(OnLaunch(Ok(NeedsPairing))));
               && d.view.phase.Idle? && d.view.error == Some(PairAgain) && d.view.target.None? && AtRest(d)
               && (forall t :: t in d.view.trusted <==> t in c.view.trusted && t.id != id)
               && d.link.physical == c.link.physical && d.link.live == c.link.live
  {
  }

  /** A disconnect closes the physical connection; when it fails that one stays. */
  lemma DisconnectCompletes(c: Controller, id: Id, cause: Cause)
    requires AtRest(c) && c.link.physical == Some(id)
    ensures var b := Step(Step(c, Ask(DoDisconnectActive)), Work(OnStartOp));
            && b.link.running == Disconnecting(DisconnectOp(b.epoch, id))
            && Enabled(b, Work(OnDisconnect(None))) && Enabled(b, Work(OnDisconnect(Some(cause))))
            && var d, f := Step(b, Work(OnDisconnect(None))), Step(b, Work(OnDisconnect(Some(cause))));
               && d.link.physical.None? && d.view.active.None? && d.view.phase.Idle? && d.link.live == c.link.live - {id} && AtRest(d)
               && f.link.physical == Some(id) && f.link.live == c.link.live && f.view.active == c.view.active && AtRest(f)
               && (cause.code.Some? ==> f.view.phase == FailurePhase(cause.code.value, Unreachable))
  {
  }

  /** A forget closes that server and takes it off the list, and touches no other. */
  lemma ForgetCompletes(c: Controller, id: Id, cause: Cause)
    requires AtRest(c)
    ensures var b := Step(Step(c, Ask(DoForget(id))), Work(OnStartOp));
            && b.link.running == Forgetting(ForgetOp(b.epoch, id)) && b.view.phase.LoadingTrustedConnections?
            && Enabled(b, Work(OnForget(None))) && Enabled(b, Work(OnForget(Some(cause))))
            && var d, f := Step(b, Work(OnForget(None))), Step(b, Work(OnForget(Some(cause))));
               && (forall t :: t in d.view.trusted <==> t in c.view.trusted && t.id != id) && d.view.phase.Idle? && AtRest(d)
               && d.link.physical == (if c.link.physical == Some(id) then None else c.link.physical)
               && d.view.active == (if c.view.active == Some(id) then None else c.view.active)
               && d.link.live == c.link.live - {id} && d.view.target.None?
               && f.view.trusted == c.view.trusted && f.view.active == c.view.active && AtRest(f)
               && f.link.physical == c.link.physical && f.link.live == c.link.live
               && (cause.code.Some? ==> f.view.phase == FailurePhase(cause.code.value, FatalError) && f.view.target.None?)
  {
  }

  /** A refused request queues nothing, and names the server and what is wrong with it. */
  lemma RefusalShows(c: Controller, id: Id)
    requires !c.disposed && ConnectVerdict(c.view.trusted, id).Refused?
    ensures var d, saved := Step(c, Ask(DoConnect(id))), Find(c.view.trusted, id);
            && d.link == c.link && d.inflight == c.inflight
            && (saved.None? ==> d.view.phase.FatalError? && d.view.error == Some(UnknownConnection) && d.view.target.None?)
            && (saved.Some? ==> d.view.target == Some(id))
            && (saved.Some? && (saved.value.revoked || saved.value.pairingState.RevokedPairing?) ==> d.view.phase.Revoked?)
            && (saved.Some? && !saved.value.revoked && !saved.value.pairingState.RevokedPairing? ==>
                  if saved.value.hasSecureIdentity then
                    saved.value.pairingState.Prepared? && d.view.phase.PairingRejected? && d.view.error == Some(ResumePairingFirst)
                  else d.view.phase.IdentityMismatch?)
  {
  }

  // ---- renames and failures ------------------------------------------------------------------------------

  /** A rename reloads the list, and every entry still listed is the one just read. */
  lemma RenameRefreshes(c: Controller, ticket: nat, saved: seq<Connection>, k: nat)
    requires !c.disposed && Enabled(c, Hear(DoRename(ticket))) && k < |c.view.trusted|
    ensures var b := Step(Step(c, Hear(DoRename(ticket))), Hear(OnRename(ticket, true)));
            && Enabled(b, Hear(OnRenamedList(ticket, Ok(saved))))
            && var d := Step(b, Hear(OnRenamedList(ticket, Ok(saved))));
               && |d.view.trusted| == |c.view.trusted|
               && d.view.trusted[k] == (match Find(saved, c.view.trusted[k].id) case Some(t) => t case None => c.view.trusted[k])
  {
  }

  /** Which screen a code leads to: each of these exactly from its own codes, and any other code to
      the handler's own screen. */
  lemma FailurePhaseExact(code: Code, fallback: Phase)
    requires fallback in {FatalError, NumericCodeEntry, Idle}
    ensures FailurePhase(code, fallback).Offline? <==> code.OfflineCode?
    ensures FailurePhase(code, fallback).Revoked? <==> code.DeviceRevoked? || code.RevokedCode?
    ensures FailurePhase(code, fallback).IdentityMismatch? <==> code.HostIdentityMismatch? || code.HostIdentityUnavailable?
    ensures FailurePhase(code, fallback).PairingExpired? <==> code.PairingExpiredCode?
    ensures FailurePhase(code, fallback).PairingRejected? <==> code.PairingRejectedCode?
    ensures FailurePhase(code, fallback).Incompatible? <==>
            code.ProtocolIncompatible? || code.ProtocolVersionUnsupported? || code.IncompatibleCode?
    ensures FailurePhase(code, fallback).NumericCodeRateLimited? <==>
            code.RateLimited? || code.RequestRateLimited? || code.PairingRateLimited?
    ensures FailurePhase(code, fallback).Unreachable? <==>
            code.TransportUnavailable? || code.TransportProtocolError? || code.ServerUnreachable?
    ensures FailurePhase(code, fallback) == fallback <==> code.Forbidden? || code.DiscoveryPermissionDenied? || code.OtherCode?
    ensures ErrorText(code, "") == CannotVerifyScreen <==> code.Forbidden?
  {
  }
}
