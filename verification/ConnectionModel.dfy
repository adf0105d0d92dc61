/**
  The phone connection controller as a state machine over values.

  Every stretch of controller code between two awaits is one step. Work that is
  waiting for the native side is part of the state: `running` is the queued
  operation in progress, `queue` the operations behind it, and `inflight` the
  continuations that do not go through the connection queue. A step takes the
  answer of the native side as an argument, so every order and every outcome of
  the native calls is a run.
 */
module ConnectionModel {
  import opened Prelude

  /** Connection ids are not empty: the source tests `previous` and `connectionId` for truth. */
  type Id = s: string | |s| > 0 witness ['i']

  datatype Phase =
    | Idle | LoadingTrustedConnections | Discovering | DiscoveryPermissionRequired
    | DiscoveryEmpty | DiscoveryResults | PreparingPairing | ScanningQr
    | ValidatingPairing | Pairing | SafetyConfirmation | AwaitingHostApproval
    | Connected | Switching | Reconnecting | Recovering | Offline | Unreachable
    | Revoked | Incompatible | IdentityMismatch | PairingExpired | PairingRejected
    | NumericCodeEntry | NumericCodeValidating | NumericCodeRateLimited | FatalError

  datatype PairingState = Unstated | Prepared | Active | RevokedPairing

  datatype Connection = Connection(id: Id, hostLabel: string, pairingState: PairingState,
                                   revoked: bool, hasSecureIdentity: bool)

  datatype Attempt = Attempt(id: nat, hasSafetyPhrase: bool)

  /** What the screens see: the controller's public state object. */
  datatype View = View(
    phase: Phase, epoch: nat, trusted: seq<Connection>, discovered: seq<string>,
    numericTarget: Option<string>, active: Option<Id>, target: Option<Id>,
    attempt: Option<Attempt>, error: Option<Notice>)

  /** The texts the controller shows: its own, or the message of a rejection. */
  datatype Notice =
    | ChooseNearbyFirst | UnknownConnection | ResumePairingFirst | ReconnectNeeded
    | PairAgain | CannotVerifyScreen | CodeText(code: Code) | Text(text: string)

  /** The codes the source tells apart, by name; every other string is OtherCode. */
  datatype Code =
    | OfflineCode | DeviceRevoked | RevokedCode | HostIdentityMismatch | HostIdentityUnavailable
    | PairingExpiredCode | PairingRejectedCode | ProtocolIncompatible | ProtocolVersionUnsupported
    | IncompatibleCode | RateLimited | RequestRateLimited | PairingRateLimited | TransportUnavailable
    | TransportProtocolError | ServerUnreachable | Forbidden | DiscoveryPermissionDenied
    | OtherCode(text: string)

  /** A rejection. Without a string `code` the source's errorText and errorCode call
      each other until the stack overflows, so the handler that asked never patches. */
  datatype Cause = Cause(code: Option<Code>, message: string)

  datatype Reply<+T> = Ok(value: T) | Failed(cause: Cause)

  datatype Op =
    | ConnectOp(epoch: nat, id: Id)
    | RecoverOp(epoch: nat, id: Id)
    | DisconnectOp(epoch: nat, id: Id)
    | ForgetOp(epoch: nat, id: Id)

  /** The await the queued operation in progress stands at. */
  datatype Running =
    | Quiet
    | DroppingStale(op: Op)
    | Launching(op: Op)
    | DroppingSuperseded(launch: Id)
    | DroppingPrevious(op: Op, launch: Id, previous: Id)
    | RollingBack(op: Op, launch: Id, previous: Id, cause: Cause)
    | Disconnecting(op: Op)
    | Forgetting(op: Op)

  /** Continuations outside the connection queue. A rename has no epoch; its ticket tells
      two renames apart. */
  datatype Await =
    | AwaitList(epoch: nat)
    | AwaitDiscovery(epoch: nat)
    | AwaitNumeric(epoch: nat, host: string)
    | AwaitTicket(epoch: nat)
    | AwaitPairing(epoch: nat)
    | AwaitConfirm(epoch: nat)
    | AwaitCancelReport(epoch: nat)
    | AwaitStrayDrop(epoch: nat, launch: Id)
    | AwaitRename(ticket: nat)
    | AwaitRenamedList(ticket: nat)

  /** The connection queue and the sessions behind it: the id the controller believes the
      native side holds, the operations waiting, the one in progress, the launches that
      stalled, and the sessions the native side really has open. */
  datatype Link = Link(physical: Option<Id>, queue: seq<Op>, running: Running, stale: set<Id>, live: set<Id>)

  /** The discovery session held, and the browsers the native side runs. */
  datatype Browser = Browser(session: Option<nat>, running: set<nat>)

  /** `cancelled` is the set of pairing attempts the native side was told to give up. */
  datatype Controller = Controller(
    view: View, epoch: nat, disposed: bool, link: Link, browser: Browser,
    inflight: set<Await>, cancelled: set<nat>)

  datatype Launched = Launch(launch: Id) | NeedsPairing

  function Initial(live: set<Id>, error: Option<Notice>): Controller {
    Controller(View(Idle, 0, [], [], None, None, None, None, error), 0, false,
               Link(None, [], Quiet, {}, live), Browser(None, {}), {}, {})
  }

  // ---- helpers ---------------------------------------------------------------

  predicate DiscoveryActive(p: Phase) {
    p.Discovering? || p.DiscoveryEmpty? || p.DiscoveryResults?
  }

  function FailurePhase(code: Code, fallback: Phase): Phase {
    match code
    case OfflineCode => Offline
    case DeviceRevoked | RevokedCode => Revoked
    case HostIdentityMismatch | HostIdentityUnavailable => IdentityMismatch
    case PairingExpiredCode => PairingExpired
    case PairingRejectedCode => PairingRejected
    case ProtocolIncompatible | ProtocolVersionUnsupported | IncompatibleCode => Incompatible
    case RateLimited | RequestRateLimited | PairingRateLimited => NumericCodeRateLimited
    case TransportUnavailable | TransportProtocolError | ServerUnreachable => Unreachable
    case Forbidden | DiscoveryPermissionDenied | OtherCode(_) => fallback
  }

  function ErrorText(code: Code, message: string): Notice {
    if code.Forbidden? then CannotVerifyScreen else Text(message)
  }

  predicate Current(c: Controller, epoch: nat) {
    !c.disposed && epoch == c.epoch
  }

  function Find(trusted: seq<Connection>, id: Id): (r: Option<Connection>)
    ensures r.Some? ==> r.value in trusted && r.value.id == id
    ensures r.None? <==> forall c :: c in trusted ==> c.id != id
  {
    if trusted == [] then None
    else if trusted[0].id == id then Some(trusted[0])
    else Find(trusted[1..], id)
  }

  function Ids(trusted: seq<Connection>): seq<Id> {
    seq(|trusted|, i requires 0 <= i < |trusted| => trusted[i].id)
  }

  function Without(trusted: seq<Connection>, id: Id): (r: seq<Connection>)
    ensures forall c :: c in r <==> c in trusted && c.id != id
  {
    if trusted == [] then []
    else (if trusted[0].id == id then [] else [trusted[0]]) + Without(trusted[1..], id)
  }

  /** `rename` refreshes the entries that are already listed. */
  function Refreshed(trusted: seq<Connection>, saved: seq<Connection>): (r: seq<Connection>)
    ensures Ids(r) == Ids(trusted)
  {
    seq(|trusted|, i requires 0 <= i < |trusted| =>
      match Find(saved, trusted[i].id) case Some(c) => c case None => trusted[i])
  }

  function Forgotten(physical: Option<Id>, id: Id): Option<Id> {
    if physical == Some(id) then None else physical
  }

  function Dropped(live: set<Id>, id: Id, ok: bool): set<Id> {
    if ok then live - {id} else live
  }

  function Stopped(b: Browser): Browser {
    match b.session
    case None => b
    case Some(s) => Browser(None, b.running - {s})
  }

  /** The part every intent resets. */
  function Reset(v: View, phase: Phase, epoch: nat): View {
    v.(phase := phase, epoch := epoch, error := None, target := None, numericTarget := None)
  }

  /** The catch blocks. A cause without a code never reaches the patch. */
  function WithError(v: View, cause: Cause): View {
    if cause.code.None? then v else v.(error := Some(ErrorText(cause.code.value, cause.message)))
  }

  function Failure(v: View, cause: Cause, fallback: Phase): View {
    if cause.code.None? then v else WithError(v, cause).(phase := FailurePhase(cause.code.value, fallback))
  }

  /** As Failure, in the handlers that also give up the target. */
  function FailureWithoutTarget(v: View, cause: Cause, fallback: Phase): View {
    if cause.code.None? then v else Failure(v, cause, fallback).(target := None)
  }

  // ---- user intents ------------------------------------------------------------

  /** What the screens ask for. */
  datatype Intention =
    | DoDispose | DoLoad | DoStartDiscovery | DoStopDiscovery
    | DoStartNumericEntry(host: string) | DoCancelNumericEntry | DoSubmitNumericCode
    | DoStartQrScan | DoCancelQrScan(epoch: nat) | DoAcceptQrResult(epoch: nat) | DoBeginPairing
    | DoConfirmPairing | DoCancelPairing | DoLaunchStalled(id: Id)
    | DoConnect(id: Id) | DoRecoverPrepared(id: Id) | DoDisconnectActive | DoForget(id: Id)

  /** Requests the controller returns from before it takes an epoch. */
  predicate Ignored(c: Controller, i: Intention) {
    match i
    case DoCancelQrScan(epoch) => !Current(c, epoch)
    case DoAcceptQrResult(epoch) => !Current(c, epoch)
    case DoConfirmPairing => c.view.attempt.None?
    case DoLaunchStalled(id) => !c.view.phase.Connected? || c.view.active != Some(id)
    case DoRecoverPrepared(id) =>
      var saved := Find(c.view.trusted, id); saved.None? || !saved.value.pairingState.Prepared?
    case _ => false
  }

  datatype Verdict = Refused(phase: Phase, target: Option<Id>, error: Option<Notice>) | Accepted

  /** What connect() checks before it queues anything. */
  function ConnectVerdict(trusted: seq<Connection>, id: Id): (v: Verdict)
    ensures v.Refused? ==> !v.phase.Connected? && !DiscoveryActive(v.phase)
  {
    match Find(trusted, id)
    case None => Refused(FatalError, None, Some(UnknownConnection))
    case Some(saved) =>
      if saved.revoked || saved.pairingState.RevokedPairing? then Refused(Revoked, Some(id), None)
      else if !saved.hasSecureIdentity then Refused(IdentityMismatch, Some(id), None)
      else if saved.pairingState.Prepared? then Refused(PairingRejected, Some(id), Some(ResumePairingFirst))
      else Accepted
  }

  function RecoverVerdict(trusted: seq<Connection>, id: Id): (v: Verdict)
    ensures v.Refused? ==> !v.phase.Connected? && !DiscoveryActive(v.phase)
  {
    match Find(trusted, id)
    case Some(saved) => if saved.hasSecureIdentity then Accepted else Refused(IdentityMismatch, Some(id), None)
    case None => Accepted
  }

  function RefusedView(v: View, r: Verdict, epoch: nat): View
    requires r.Refused?
  {
    Reset(v, r.phase, epoch).(target := r.target, error := r.error)
  }

  /** What an intent shows at once. */
  function AskedView(c: Controller, i: Intention): View {
    var v, e := c.view, c.epoch + 1;
    match i
    case DoDispose => v
    case DoLoad => Reset(v, LoadingTrustedConnections, e)
    case DoStartDiscovery => Reset(v, Discovering, e).(discovered := [])
    case DoStopDiscovery => Reset(v, Idle, e).(discovered := [])
    case DoStartNumericEntry(host) => Reset(v, NumericCodeEntry, e).(numericTarget := Some(host), attempt := None)
    case DoCancelNumericEntry => Reset(v, Idle, e).(attempt := None)
    case DoSubmitNumericCode =>
      if v.numericTarget.None? then Reset(v, FatalError, e).(error := Some(ChooseNearbyFirst))
      else Reset(v, NumericCodeValidating, e).(numericTarget := v.numericTarget, attempt := None)
    case DoStartQrScan => Reset(v, ScanningQr, e).(attempt := None)
    case DoCancelQrScan(_) => Reset(v, Idle, e)
    case DoAcceptQrResult(_) => Reset(v, ValidatingPairing, e).(attempt := None)
    case DoBeginPairing => Reset(v, ValidatingPairing, e).(attempt := None)
    case DoConfirmPairing => Reset(v, AwaitingHostApproval, e)
    case DoCancelPairing => Reset(v, Idle, e).(attempt := None)
    case DoLaunchStalled(_) => Reset(v, Unreachable, e).(active := None, error := Some(ReconnectNeeded))
    case DoConnect(id) =>
      var verdict := ConnectVerdict(v.trusted, id);
      if verdict.Refused? then RefusedView(v, verdict, e)
      else Reset(v, if c.link.physical.Some? && c.link.physical != Some(id) then Switching else Reconnecting, e)
             .(target := Some(id))
    case DoRecoverPrepared(id) =>
      var verdict := RecoverVerdict(v.trusted, id);
      if verdict.Refused? then RefusedView(v, verdict, e) else Reset(v, Recovering, e).(target := Some(id))
    case DoDisconnectActive => Reset(v, Idle, e)
    case DoForget(id) => Reset(v, LoadingTrustedConnections, e).(target := Some(id))
  }

  /** The operation an intent queues. */
  function AskedOp(c: Controller, i: Intention): Option<Op> {
    var e := c.epoch + 1;
    match i
    case DoConnect(id) => if ConnectVerdict(c.view.trusted, id).Accepted? then Some(ConnectOp(e, id)) else None
    case DoRecoverPrepared(id) => if RecoverVerdict(c.view.trusted, id).Accepted? then Some(RecoverOp(e, id)) else None
    case DoDisconnectActive => if c.link.physical.Some? then Some(DisconnectOp(e, c.link.physical.value)) else None
    case DoForget(id) => Some(ForgetOp(e, id))
    case _ => None
  }

  /** The native call an intent waits for outside the queue. */
  function AskedAwait(c: Controller, i: Intention): Option<Await> {
    var e := c.epoch + 1;
    match i
    case DoLoad => Some(AwaitList(e))
    case DoStartDiscovery => Some(AwaitDiscovery(e))
    case DoSubmitNumericCode =>
      if c.view.numericTarget.Some? then Some(AwaitNumeric(e, c.view.numericTarget.value)) else None
    case DoAcceptQrResult(_) => Some(AwaitTicket(e))
    case DoBeginPairing => Some(AwaitTicket(e))
    case DoConfirmPairing => Some(AwaitConfirm(e))
    case DoCancelPairing => if c.view.attempt.Some? then Some(AwaitCancelReport(e)) else None
    case _ => None
  }

  function Behind(queue: seq<Op>, op: Option<Op>): seq<Op> {
    if op.Some? then queue + [op.value] else queue
  }

  function Expecting(inflight: set<Await>, a: Option<Await>): set<Await> {
    if a.Some? then inflight + {a.value} else inflight
  }

  function Settling(inflight: set<Await>, a: Option<Await>): set<Await> {
    if a.Some? then inflight - {a.value} else inflight
  }

  function Asked(c: Controller, i: Intention): Controller {
    if Ignored(c, i) then c
    else
      Controller(
        if c.disposed then c.view else AskedView(c, i),
        c.epoch + 1,
        c.disposed || i.DoDispose?,
        c.link.(queue := Behind(c.link.queue, AskedOp(c, i)),
                stale := if i.DoLaunchStalled? then c.link.stale + {i.id} else c.link.stale),
        Stopped(c.browser),
        Expecting(c.inflight, AskedAwait(c, i)),
        if i.DoCancelPairing? && c.view.attempt.Some? then c.cancelled + {c.view.attempt.value.id} else c.cancelled)
  }

  // ---- continuations outside the queue -----------------------------------------

  datatype Listing = Listing(trusted: seq<Connection>, connected: seq<bool>)

  /** The first listed connection whose status says "connected". */
  function FirstConnected(l: Listing): Option<Id>
    requires |l.connected| == |l.trusted|
    decreases |l.trusted|
  {
    if l.trusted == [] then None
    else if l.connected[0] then Some(l.trusted[0].id)
    else FirstConnected(Listing(l.trusted[1..], l.connected[1..]))
  }

  /** Continuations outside the queue, and the two requests without an epoch of their own. */
  datatype Report =
    | OnList(epoch: nat, listing: Reply<Listing>)
    | OnDiscoveryUpdate(epoch: nat, phase: Phase, found: seq<string>, error: Option<Notice>)
    | OnDiscovery(epoch: nat, session: Reply<nat>)
    | OnNumeric(epoch: nat, host: string, attempt: Reply<Attempt>)
    | OnTicket(epoch: nat, parsed: Reply<()>)
    | OnPairing(epoch: nat, attempt: Reply<Attempt>)
    | OnConfirm(epoch: nat, launch: Reply<Id>)
    | OnCancelReport(epoch: nat, failure: Option<Cause>)
    | DoFailQrScan(epoch: nat, cause: Cause)
    | OnStrayDrop(epoch: nat, id: Id, ok: bool)
    | DoRename(ticket: nat) | OnRename(ticket: nat, ok: bool)
    | OnRenamedList(ticket: nat, saved: Reply<seq<Connection>>)
    | OnSessionLost(id: Id)

  predicate HasEpoch(r: Report) {
    !r.OnStrayDrop? && !r.DoRename? && !r.OnRename? && !r.OnRenamedList? && !r.OnSessionLost?
  }

  function AwaitOf(r: Report): Option<Await> {
    match r
    case OnList(epoch, _) => Some(AwaitList(epoch))
    case OnDiscovery(epoch, _) => Some(AwaitDiscovery(epoch))
    case OnNumeric(epoch, host, _) => Some(AwaitNumeric(epoch, host))
    case OnTicket(epoch, _) => Some(AwaitTicket(epoch))
    case OnPairing(epoch, _) => Some(AwaitPairing(epoch))
    case OnConfirm(epoch, _) => Some(AwaitConfirm(epoch))
    case OnCancelReport(epoch, _) => Some(AwaitCancelReport(epoch))
    case OnStrayDrop(epoch, id, _) => Some(AwaitStrayDrop(epoch, id))
    case OnRename(ticket, _) => Some(AwaitRename(ticket))
    case OnRenamedList(ticket, _) => Some(AwaitRenamedList(ticket))
    case _ => None
  }

  /** The native side does not hand out an attempt id, or a browser, twice. */
  predicate NewAttempt(c: Controller, a: Reply<Attempt>) {
    a.Ok? ==> a.value.id !in c.cancelled && (c.view.attempt.Some? ==> c.view.attempt.value.id != a.value.id)
  }

  predicate Heard(c: Controller, r: Report) {
    && (AwaitOf(r).Some? ==> AwaitOf(r).value in c.inflight)
    && (r.OnList? && r.listing.Ok? ==> |r.listing.value.connected| == |r.listing.value.trusted|)
    && (r.OnDiscoveryUpdate? ==>
          DiscoveryActive(r.phase) || r.phase.DiscoveryPermissionRequired? || r.phase.FatalError?)
    && (r.OnDiscovery? && r.session.Ok? ==> r.session.value !in c.browser.running)
    && (r.OnNumeric? || r.OnPairing? ==> NewAttempt(c, r.attempt))
    && (r.DoRename? ==> AwaitRename(r.ticket) !in c.inflight && AwaitRenamedList(r.ticket) !in c.inflight)
  }

  /** What a report shows, if it is current. */
  function ReportedView(v: View, r: Report): View
    requires r.OnList? && r.listing.Ok? ==> |r.listing.value.connected| == |r.listing.value.trusted|
  {
    match r
    case OnList(_, Ok(l)) => v.(phase := Idle, trusted := l.trusted, active := FirstConnected(l))
    case OnList(_, Failed(cause)) => Failure(v, cause, FatalError)
    case OnDiscoveryUpdate(_, phase, found, error) => v.(phase := phase, discovered := found, error := error)
    case OnDiscovery(_, Ok(_)) => v
    case OnDiscovery(_, Failed(cause)) =>
      if cause.code.None? then v
      else v.(phase := if cause.code.value.DiscoveryPermissionDenied? then DiscoveryPermissionRequired else FatalError,
              discovered := [], error := Some(CodeText(cause.code.value)))
    case OnNumeric(_, _, Ok(a)) => v.(phase := if a.hasSafetyPhrase then SafetyConfirmation else Pairing, attempt := Some(a))
    case OnNumeric(_, host, Failed(cause)) =>
      if cause.code.None? then v else Failure(v, cause, NumericCodeEntry).(numericTarget := Some(host))
    case OnTicket(_, Ok(_)) => v.(phase := PreparingPairing)
    case OnTicket(_, Failed(cause)) => Failure(v, cause, Idle)
    case OnPairing(_, Ok(a)) => v.(phase := if a.hasSafetyPhrase then SafetyConfirmation else Pairing, attempt := Some(a))
    case OnPairing(_, Failed(cause)) => Failure(v, cause, Idle)
    case OnConfirm(_, Ok(launch)) => v.(phase := Connected, active := Some(launch), attempt := None)
    case OnConfirm(_, Failed(cause)) => Failure(v, cause, PairingRejected)
    case OnCancelReport(_, None) => v
    case OnCancelReport(_, Some(cause)) => WithError(v, cause)
    case DoFailQrScan(_, cause) => if cause.code.None? then v else WithError(v, cause).(phase := Idle)
    case OnRenamedList(_, Ok(saved)) => v.(trusted := Refreshed(v.trusted, saved))
    case _ => v
  }

  function ReportedLink(c: Controller, r: Report): Link
    requires r.OnList? && r.listing.Ok? ==> |r.listing.value.connected| == |r.listing.value.trusted|
  {
    match r
    case OnList(epoch, Ok(l)) => if Current(c, epoch) then c.link.(physical := FirstConnected(l)) else c.link
    case OnConfirm(epoch, Ok(launch)) =>
      c.link.(live := c.link.live + {launch},
              physical := if Current(c, epoch) then Some(launch) else c.link.physical)
    case OnStrayDrop(_, id, ok) => c.link.(live := Dropped(c.link.live, id, ok))
    case OnSessionLost(id) => c.link.(live := c.link.live - {id})
    case _ => c.link
  }

  function ReportedBrowser(c: Controller, r: Report): Browser {
    match r
    case OnDiscoveryUpdate(epoch, phase, _, _) =>
      if Current(c, epoch) && !DiscoveryActive(phase) then Stopped(c.browser) else c.browser
    case OnDiscovery(epoch, Ok(session)) =>
      // A session that arrives too late is stopped as it arrives.
      if Current(c, epoch) && DiscoveryActive(c.view.phase)
      then Browser(Some(session), c.browser.running + {session}) else c.browser
    case _ => c.browser
  }

  /** The call a report makes next: the pairing itself, a stray session to drop, the renamed list. */
  function NextAwait(c: Controller, r: Report): Option<Await> {
    match r
    case OnTicket(epoch, Ok(_)) => if Current(c, epoch) then Some(AwaitPairing(epoch)) else None
    case OnConfirm(epoch, Ok(launch)) =>
      if !Current(c, epoch) && c.view.target != Some(launch) && c.view.active != Some(launch)
      then Some(AwaitStrayDrop(epoch, launch)) else None
    case DoRename(ticket) => Some(AwaitRename(ticket))
    case OnRename(ticket, ok) => if ok then Some(AwaitRenamedList(ticket)) else None
    case _ => None
  }

  function Reported(c: Controller, r: Report): Controller
    requires Heard(c, r)
  {
    Controller(
      if c.disposed || (HasEpoch(r) && r.epoch != c.epoch) then c.view else ReportedView(c.view, r),
      c.epoch, c.disposed, ReportedLink(c, r), ReportedBrowser(c, r),
      Expecting(Settling(c.inflight, AwaitOf(r)), NextAwait(c, r)),
      if (r.OnNumeric? || r.OnPairing?) && r.attempt.Ok? && !Current(c, r.epoch)
      then c.cancelled + {r.attempt.value.id} else c.cancelled)
  }

  // ---- the connection queue ------------------------------------------------------

  /** The connection queue starts or resumes its operation. */
  datatype QueueStep =
    | OnStartOp | OnStaleDropped(ok: bool) | OnLaunch(launched: Reply<Launched>)
    | OnSupersededDropped(ok: bool) | OnPreviousDropped(failure: Option<Cause>)
    | OnRolledBack(ok: bool) | OnDisconnect(failure: Option<Cause>) | OnForget(failure: Option<Cause>)

  predicate Awaited(r: Running, pending: bool, s: QueueStep) {
    match s
    case OnStartOp => r.Quiet? && pending
    case OnStaleDropped(_) => r.DroppingStale?
    case OnLaunch(l) => r.Launching? && (l == Ok(NeedsPairing) ==> r.op.RecoverOp?)
    case OnSupersededDropped(_) => r.DroppingSuperseded?
    case OnPreviousDropped(_) => r.DroppingPrevious?
    case OnRolledBack(_) => r.RollingBack?
    case OnDisconnect(_) => r.Disconnecting?
    case OnForget(_) => r.Forgetting?
  }

  predicate HasOp(r: Running) {
    !r.Quiet? && !r.DroppingSuperseded?
  }

  /** The epoch the operation in progress, or about to start, checks. */
  function WorkEpoch(l: Link, s: QueueStep): Option<nat>
    requires Awaited(l.running, l.queue != [], s)
  {
    if s.OnStartOp? then Some(l.queue[0].epoch)
    else if HasOp(l.running) then Some(l.running.op.epoch)
    else None
  }

  function StartOp(l: Link, current: bool): Link
    requires l.running.Quiet? && l.queue != []
  {
    var op := l.queue[0];
    var rest := l.(queue := l.queue[1..]);
    if !current then rest
    else if op.DisconnectOp? then rest.(running := Disconnecting(op))
    else if op.ForgetOp? then rest.(running := Forgetting(op))
    else if op.id in l.stale then rest.(stale := l.stale - {op.id}, running := DroppingStale(op))
    else rest.(running := Launching(op))
  }

  /** A launch arrived: a superseded one is dropped, a current one replaces the previous. */
  function Activate(l: Link, op: Op, launch: Id, current: bool): Link {
    if !current then l.(running := DroppingSuperseded(launch))
    else l.(physical := Some(launch),
            running := if l.physical.Some? && l.physical.value != launch
                       then DroppingPrevious(op, launch, l.physical.value) else Quiet)
  }

  function WorkedLink(l: Link, s: QueueStep, current: bool): Link
    requires Awaited(l.running, l.queue != [], s)
  {
    match s
    case OnStartOp => StartOp(l, current)
    case OnStaleDropped(ok) =>
      l.(live := Dropped(l.live, l.running.op.id, ok), physical := Forgotten(l.physical, l.running.op.id),
         running := if current then Launching(l.running.op) else Quiet)
    case OnLaunch(r) =>
      if r.Ok? && r.value.Launch?
      then Activate(l.(live := l.live + {r.value.launch}), l.running.op, r.value.launch, current)
      else l.(running := Quiet)
    case OnSupersededDropped(ok) =>
      l.(live := Dropped(l.live, l.running.launch, ok), physical := Forgotten(l.physical, l.running.launch),
         running := Quiet)
    case OnPreviousDropped(failure) =>
      if failure.None? then l.(live := l.live - {l.running.previous}, running := Quiet)
      else l.(running := RollingBack(l.running.op, l.running.launch, l.running.previous, failure.value))
    case OnRolledBack(ok) =>
      l.(live := Dropped(l.live, l.running.launch, ok), physical := Some(l.running.previous), running := Quiet)
    case OnDisconnect(failure) =>
      if failure.None? then l.(live := l.live - {l.running.op.id}, physical := None, running := Quiet)
      else l.(running := Quiet)
    case OnForget(failure) =>
      if failure.None?
      then l.(live := l.live - {l.running.op.id}, physical := Forgotten(l.physical, l.running.op.id), running := Quiet)
      else l.(running := Quiet)
  }

  /** What a current operation shows when it settles. */
  function WorkedView(v: View, l: Link, s: QueueStep): View
    requires Awaited(l.running, l.queue != [], s)
  {
    match s
    case OnLaunch(Ok(Launch(launch))) =>
      if l.physical.Some? && l.physical.value != launch then v else ConnectedView(v, launch)
    case OnLaunch(Ok(NeedsPairing)) =>
      v.(phase := Idle, trusted := Without(v.trusted, l.running.op.id), target := None, error := Some(PairAgain))
    case OnLaunch(Failed(cause)) => FailureWithoutTarget(v, cause, Unreachable)
    case OnPreviousDropped(None) => ConnectedView(v, l.running.launch)
    case OnRolledBack(_) => FailureWithoutTarget(v, l.running.cause, Unreachable)
    case OnDisconnect(None) => v.(active := None)
    case OnDisconnect(Some(cause)) => Failure(v, cause, Unreachable)
    case OnForget(None) =>
      v.(phase := Idle, trusted := Without(v.trusted, l.running.op.id), target := None,
         active := Forgotten(v.active, l.running.op.id))
    case OnForget(Some(cause)) => FailureWithoutTarget(v, cause, FatalError)
    case _ => v
  }

  function ConnectedView(v: View, launch: Id): View {
    v.(phase := Connected, active := Some(launch), target := None)
  }

  predicate WorkCurrent(c: Controller, s: QueueStep)
    requires Awaited(c.link.running, c.link.queue != [], s)
  {
    if s.OnSupersededDropped? then false else Current(c, WorkEpoch(c.link, s).value)
  }

  function Worked(c: Controller, s: QueueStep): Controller
    requires Awaited(c.link.running, c.link.queue != [], s)
  {
    c.(link := WorkedLink(c.link, s, WorkCurrent(c, s)),
       view := if WorkCurrent(c, s) then WorkedView(c.view, c.link, s) else c.view)
  }

  // ---- runs ------------------------------------------------------------------------

datatype Event = Ask(intention: Intention) | Hear(report: Report) | Work(step: QueueStep)

  predicate Enabled(c: Controller, e: Event) {
    match e
    case Ask(_) => true
    case Hear(r) => Heard(c, r)
    case Work(s) => Awaited(c.link.running, c.link.queue != [], s)
  }

  /** One stretch of code between two awaits. */
  function Step(c: Controller, e: Event): Controller
    requires Enabled(c, e)
  {
    match e
    case Ask(i) => Asked(c, i)
    case Hear(r) => Reported(c, r)
    case Work(s) => Worked(c, s)
  }

  /** A run: every event is enabled where it happens. */
  predicate Possible(c: Controller, run: seq<Event>)
    decreases |run|
  {
    run == [] || (Enabled(c, run[0]) && Possible(Step(c, run[0]), run[1..]))
  }

  function After(c: Controller, run: seq<Event>): Controller
    requires Possible(c, run)
    decreases |run|
  {
    if run == [] then c else After(Step(c, run[0]), run[1..])
  }

  /** A run goes on with one more enabled event. */
  lemma {:induction false} RunThenStep(c: Controller, run: seq<Event>, e: Event)
    requires Possible(c, run) && Enabled(After(c, run), e)
    ensures Possible(c, run + [e]) && After(c, run + [e]) == Step(After(c, run), e)
    decreases |run|
  {
    if run == [] {
      assert run + [e] == [e] && [e][1..] == [];
      assert Possible(Step(c, e), []);
    } else {
      RunThenStep(Step(c, run[0]), run[1..], e);
      assert (run + [e])[1..] == run[1..] + [e];
    }
  }
}
