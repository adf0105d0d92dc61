/**
  What an intent changes at once, member by member of the view.
 */
module ConnectionScreens {
  import opened Prelude
  import opened ConnectionModel

  /** The intents a controller answers: a stalled launch of the connection shown, a confirmation of
      the attempt shown, a recovery of a half paired server, the scan it belongs to, and all others. */
  predicate Answered(c: Controller, i: Intention) {
    && (i.DoLaunchStalled? ==> c.view.phase.Connected? && c.view.active == Some(i.id))
    && (i.DoConfirmPairing? ==> c.view.attempt.Some?)
    && (i.DoRecoverPrepared? ==> Find(c.view.trusted, i.id).Some? && Find(c.view.trusted, i.id).value.pairingState.Prepared?)
    && (i.DoCancelQrScan? || i.DoAcceptQrResult? ==> !c.disposed && i.epoch == c.epoch)
  }

  /** Exactly those take an epoch; the others change nothing. */
  lemma EpochTakenExact(c: Controller, i: Intention)
    ensures if Answered(c, i) then Step(c, Ask(i)).epoch == c.epoch + 1 else Step(c, Ask(i)) == c
  {
  }

  /** A pairing begins or is given up, and no attempt is shown any more. */
  predicate DropsAttempt(c: Controller, i: Intention) {
    || i.DoStartNumericEntry? || i.DoCancelNumericEntry? || (i.DoSubmitNumericCode? && c.view.numericTarget.Some?)
    || i.DoStartQrScan? || i.DoAcceptQrResult? || i.DoBeginPairing? || i.DoCancelPairing?
  }

  lemma PairingShownExact(c: Controller, i: Intention)
    requires !c.disposed && Answered(c, i) && !i.DoDispose?
    ensures var v := Step(c, Ask(i)).view;
            && v.attempt == (if DropsAttempt(c, i) then None else c.view.attempt)
            && v.numericTarget == (if i.DoStartNumericEntry? then Some(i.host)
                                   else if i.DoSubmitNumericCode? then c.view.numericTarget
                                   else None)
            && v.discovered == (if i.DoStartDiscovery? || i.DoStopDiscovery? then [] else c.view.discovered)
  {
  }

  /** The server aimed at: by a connect to a saved one, a recovery or a forget; and the one shown
      as open, which only a stalled launch takes away. */
  lemma TargetShownExact(c: Controller, i: Intention)
    requires !c.disposed && Answered(c, i) && !i.DoDispose?
    ensures var v := Step(c, Ask(i)).view;
            && v.target == (if (i.DoConnect? && Find(c.view.trusted, i.id).Some?) || i.DoRecoverPrepared? || i.DoForget? then Some(i.id)
                            else None)
            && v.active == (if i.DoLaunchStalled? then None else c.view.active)
            && v.trusted == c.view.trusted && v.epoch == c.epoch + 1
  {
  }

  /** The error shown is the intent's own. */
  lemma ErrorShownExact(c: Controller, i: Intention)
    requires !c.disposed && Answered(c, i) && !i.DoDispose?
    ensures var v := Step(c, Ask(i)).view;
            v.error == if i.DoLaunchStalled? then Some(ReconnectNeeded)
                       else if i.DoSubmitNumericCode? && c.view.numericTarget.None? then Some(ChooseNearbyFirst)
                       else if i.DoConnect? && Find(c.view.trusted, i.id).None? then Some(UnknownConnection)
                       else if i.DoConnect? && v.phase.PairingRejected? then Some(ResumePairingFirst)
                       else None
  {
  }

  /** The screen an intent leads to. */
  lemma PhaseShownExact(c: Controller, i: Intention)
    requires !c.disposed && Answered(c, i) && !i.DoDispose?
    ensures var p := Step(c, Ask(i)).view.phase;
            && (p.Discovering? <==> i.DoStartDiscovery?)
            && (p.NumericCodeEntry? <==> i.DoStartNumericEntry?)
            && (p.NumericCodeValidating? <==> i.DoSubmitNumericCode? && c.view.numericTarget.Some?)
            && (p.ScanningQr? <==> i.DoStartQrScan?)
            && (p.ValidatingPairing? <==> i.DoAcceptQrResult? || i.DoBeginPairing?)
            && (p.AwaitingHostApproval? <==> i.DoConfirmPairing?)
            && (p.Unreachable? <==> i.DoLaunchStalled?)
            && (p.LoadingTrustedConnections? <==> i.DoLoad? || i.DoForget?)
            && (p.Idle? <==> i.DoStopDiscovery? || i.DoCancelNumericEntry? || i.DoCancelQrScan? || i.DoCancelPairing? || i.DoDisconnectActive?)
            && (p.Switching? || p.Reconnecting? ==> i.DoConnect?)
            && (i.DoConnect? && c.link.physical.Some? && c.link.physical != Some(i.id) ==> !p.Reconnecting?)
            && (i.DoConnect? && !(c.link.physical.Some? && c.link.physical != Some(i.id)) ==> !p.Switching?)
            && (p.Recovering? ==> i.DoRecoverPrepared?)
  {
  }

  /** Disposing changes nothing that is shown, and stops the browser. */
  lemma DisposeShowsNothing(c: Controller)
    ensures var d := Step(c, Ask(DoDispose));
            d.disposed && d.view == c.view && d.browser.session.None? && d.link == c.link && d.inflight == c.inflight
  {
  }

  // ---- answers ------------------------------------------------------------------------------------

  /** An answer comes to its own call while that is in flight; a rename is a call of its own. */
  lemma AnswersExact(c: Controller, ticket: nat, epoch: nat, id: Id, ok: bool, saved: Reply<seq<Connection>>, failure: Option<Cause>)
    ensures Enabled(c, Hear(DoRename(ticket))) <==> AwaitRename(ticket) !in c.inflight && AwaitRenamedList(ticket) !in c.inflight
    ensures Enabled(c, Hear(OnRename(ticket, ok))) <==> AwaitRename(ticket) in c.inflight
    ensures Enabled(c, Hear(OnRenamedList(ticket, saved))) <==> AwaitRenamedList(ticket) in c.inflight
    ensures Enabled(c, Hear(OnStrayDrop(epoch, id, ok))) <==> AwaitStrayDrop(epoch, id) in c.inflight
    ensures Enabled(c, Hear(OnCancelReport(epoch, failure))) <==> AwaitCancelReport(epoch) in c.inflight
  {
  }

  /** A rename is called, then the list is read when it succeeded, and then it is over. */
  lemma RenameGoesOn(c: Controller, ticket: nat, ok: bool, saved: Reply<seq<Connection>>)
    ensures Enabled(c, Hear(DoRename(ticket))) ==>
              Step(c, Hear(DoRename(ticket))).inflight == c.inflight + {AwaitRename(ticket)}
    ensures Enabled(c, Hear(OnRename(ticket, ok))) ==>
              Step(c, Hear(OnRename(ticket, ok))).inflight ==
              (c.inflight - {AwaitRename(ticket)}) + (if ok then {AwaitRenamedList(ticket)} else {})
    ensures Enabled(c, Hear(OnRenamedList(ticket, saved))) ==>
              Step(c, Hear(OnRenamedList(ticket, saved))).inflight == c.inflight - {AwaitRenamedList(ticket)}
  {
  }

  /** A scan that fails goes back to the idle screen and says why. */
  lemma ScanFailureShown(c: Controller, code: Code, message: string)
    requires !c.disposed
    ensures var v := Step(c, Hear(DoFailQrScan(c.epoch, Cause(Some(code), message)))).view;
            v == c.view.(phase := Idle, error := Some(ErrorText(code, message)))
  {
  }

  /** A cancel that fails is only reported. */
  lemma CancelFailureShown(c: Controller, code: Code, message: string)
    requires !c.disposed && AwaitCancelReport(c.epoch) in c.inflight
    ensures var v := Step(c, Hear(OnCancelReport(c.epoch, Some(Cause(Some(code), message))))).view;
            v == c.view.(error := Some(ErrorText(code, message)))
  {
  }

  /** A browser that fails shows nothing found, whatever it had found before. */
  lemma DiscoveryFailureShown(c: Controller, code: Code, message: string)
    requires !c.disposed && AwaitDiscovery(c.epoch) in c.inflight
    ensures var v := Step(c, Hear(OnDiscovery(c.epoch, Failed(Cause(Some(code), message))))).view;
            v == c.view.(phase := if code.DiscoveryPermissionDenied? then DiscoveryPermissionRequired else FatalError,
                         discovered := [], error := Some(CodeText(code)))
  {
  }

  /** A code that fails leaves the server chosen it was entered for. */
  lemma NumericFailureShown(c: Controller, host: string, code: Code, message: string)
    requires !c.disposed && AwaitNumeric(c.epoch, host) in c.inflight
    ensures var v := Step(c, Hear(OnNumeric(c.epoch, host, Failed(Cause(Some(code), message))))).view;
            v == c.view.(phase := FailurePhase(code, NumericCodeEntry), numericTarget := Some(host),
                         error := Some(ErrorText(code, message)))
  {
  }
}
