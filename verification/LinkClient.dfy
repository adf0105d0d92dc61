/**
  The JSON-lines client of apps/desktop/src/polythLinkClient.ts: one process started on first
  use, a table of pending requests, and three ways to settle each of them.
 */
module LinkClient {
  import opened Prelude

  datatype Outcome = Result(value: int) | Failed(code: int) | TimedOut | ProcessExited | ClientClosed

  /** What a line of output says, once parsed: an answer to some id, nothing of use, or null, on
      whose `id` the handler throws. */
  datatype Message = Reply(id: int, outcome: Outcome) | Noise | NullLine

  datatype Closing = Open | AwaitsLaunch | AwaitsExit(process: nat) | Done

  /** A call first joins a launch or finds the process there (`ready`); then it fails, or is
      registered under the next id. `requestOf` and `outcome` are the specification's record of
      which id a call got and how each id was settled; `failed` of calls never registered.
      `live` are the running processes, and `orphans` those that reported an error while running. */
  datatype State = State(
    child: Option<nat>, starting: bool, closed: bool, closing: Closing, nextId: nat,
    pending: set<nat>, timers: set<nat>,
    processes: nat, live: set<nat>, orphans: set<nat>,
    calls: nat, joining: set<nat>, ready: set<nat>, failed: set<nat>, requestOf: map<nat, nat>,
    outcome: map<nat, Outcome>)

  const INITIAL := State(None, false, false, Open, 0, {}, {}, 0, {}, {}, 0, {}, {}, {}, map[], map[])

  datatype Event =
    | Invokes
    | Launches(alive: bool)
    | LaunchFails
    | Registers(call: nat)
    | Hears(message: Message)
    | Expires(id: nat)
    | Exits(process: nat)
    | Errs(process: nat)
    | Closes
    | CloseResumes(gone: bool)
    | CloseEnds

  predicate Enabled(s: State, e: Event) {
    match e
    case Invokes => true
    case Launches(_) => s.starting
    case LaunchFails => s.starting
    case Registers(c) => c in s.ready
    case Hears(m) => m.Reply? ==> m.outcome.Result? || m.outcome.Failed?
    case Expires(id) => id in s.timers
    case Exits(p) => p in s.live
    case Errs(p) => p < s.processes
    case Closes => true
    case CloseResumes(gone) => s.closing.AwaitsLaunch? && !s.starting && (s.child.Some? && gone ==> s.child.value !in s.live)
    case CloseEnds => s.closing.AwaitsExit?
  }

  function Settled(outcome: map<nat, Outcome>, ids: set<nat>, o: Outcome): map<nat, Outcome> {
    outcome + map id | id in ids :: o
  }

  /** rejectPending. */
  function RejectPending(s: State, o: Outcome): State {
    s.(outcome := Settled(s.outcome, s.pending, o), timers := s.timers - s.pending, pending := {})
  }

  /** running(), as invoke awaits it. */
  function Invoke(s: State): State {
    var t := s.(calls := s.calls + 1);
    if s.closed then t.(failed := s.failed + {s.calls})
    else if s.child.Some? then t.(ready := s.ready + {s.calls})
    else t.(joining := s.joining + {s.calls}, starting := true)
  }

  function Launch(s: State, alive: bool): State {
    s.(child := Some(s.processes), starting := false, processes := s.processes + 1,
       live := if alive then s.live + {s.processes} else s.live,
       joining := {}, ready := s.ready + s.joining)
  }

  function Register(s: State, c: nat): State {
    var id := s.nextId + 1;
    s.(nextId := id, ready := s.ready - {c}, requestOf := s.requestOf[c := id],
       pending := s.pending + {id}, timers := s.timers + {id})
  }

  function Settle(s: State, id: nat, o: Outcome): State {
    s.(pending := s.pending - {id}, timers := s.timers - {id}, outcome := s.outcome[id := o])
  }

  function Hear(s: State, m: Message): State {
    if m.Reply? && m.id >= 0 && m.id in s.pending then Settle(s, m.id, m.outcome) else s
  }

  /** The end of a process, or an error it reports: only the current one counts. */
  function End(s: State, p: nat): State {
    if s.child != Some(p) then s
    else RejectPending(s.(child := None), if s.closed then ClientClosed else ProcessExited)
  }

  function ResumeClose(s: State, gone: bool): State {
    if s.child.None? || gone then RejectPending(s.(closing := Done), ClientClosed)
    else s.(closing := AwaitsExit(s.child.value))
  }

  function Step(s: State, e: Event): State
    requires Enabled(s, e)
  {
    match e
    case Invokes => Invoke(s)
    case Launches(alive) => Launch(s, alive)
    case LaunchFails => s.(starting := false, joining := {}, failed := s.failed + s.joining)
    case Registers(c) => Register(s, c)
    case Hears(m) => Hear(s, m)
    case Expires(id) => Settle(s, id, TimedOut)
    case Exits(p) => End(s.(live := s.live - {p}), p)
    case Errs(p) => End(s.(orphans := if p in s.live then s.orphans + {p} else s.orphans), p)
    case Closes => if s.closed then s else s.(closed := true, closing := AwaitsLaunch)
    case CloseResumes(gone) => ResumeClose(s, gone)
    case CloseEnds => s.(closing := Done)
  }

  ghost predicate Possible(s: State, events: seq<Event>)
    decreases |events|
  {
    events == [] || (Enabled(s, events[0]) && Possible(Step(s, events[0]), events[1..]))
  }

  ghost function After(s: State, events: seq<Event>): State
    requires Possible(s, events)
    decreases |events|
  {
    if events == [] then s else After(Step(s, events[0]), events[1..])
  }

  // ---- the invariant -----------------------------------------------------------------------

  /** A call is in exactly one place. */
  ghost predicate CallPlaced(s: State, c: nat) {
    && (c < s.calls <==> c in s.joining || c in s.ready || c in s.failed || c in s.requestOf)
    && (c in s.joining ==> c !in s.ready && c !in s.failed && c !in s.requestOf)
    && (c in s.ready ==> c !in s.failed && c !in s.requestOf)
    && (c in s.failed ==> c !in s.requestOf)
  }

  /** So is a request id: still pending, or settled. */
  ghost predicate IdPlaced(s: State, id: nat) {
    && (1 <= id <= s.nextId <==> id in s.pending || id in s.outcome)
    && !(id in s.pending && id in s.outcome)
  }

  ghost predicate Calls(s: State) {
    forall c: nat :: CallPlaced(s, c)
  }

  ghost predicate Ids(s: State) {
    forall id: nat :: IdPlaced(s, id)
  }

  /** Every registered call has an id of its own. */
  ghost predicate Assigned(s: State) {
    && (forall c :: c in s.requestOf ==> 1 <= s.requestOf[c] <= s.nextId)
    && (forall c, d :: c in s.requestOf && d in s.requestOf && s.requestOf[c] == s.requestOf[d] ==> c == d)
  }

  ghost predicate Processes(s: State) {
    && (forall p :: p in s.live ==> p < s.processes && (s.child == Some(p) || p in s.orphans))
    && (s.starting ==> s.child.None?)
    && (s.child.Some? ==> s.child.value < s.processes)
    && (s.joining != {} ==> s.starting)
    && (s.closing.Open? <==> !s.closed)
  }

  ghost predicate Inv(s: State) {
    Calls(s) && Ids(s) && Assigned(s) && Processes(s) && s.timers == s.pending
  }

  lemma CallsKeep(s: State, e: Event)
    requires Calls(s) && Enabled(s, e)
    ensures Calls(Step(s, e))
  {
    var t := Step(s, e);
    forall c: nat ensures CallPlaced(t, c) {
      assert CallPlaced(s, c);
    }
  }

  lemma IdsKeep(s: State, e: Event)
    requires Ids(s) && s.timers == s.pending && Enabled(s, e)
    ensures Ids(Step(s, e))
  {
    var t := Step(s, e);
    forall id: nat ensures IdPlaced(t, id) {
      assert IdPlaced(s, id);
    }
  }

  lemma RestKeeps(s: State, e: Event)
    requires Assigned(s) && Processes(s) && s.timers == s.pending && Enabled(s, e)
    ensures Assigned(Step(s, e)) && Processes(Step(s, e)) && Step(s, e).timers == Step(s, e).pending
  {
  }

  lemma {:induction false} Always(s: State, events: seq<Event>)
    requires Inv(s) && Possible(s, events)
    ensures Inv(After(s, events))
    decreases |events|
  {
    if events != [] {
      CallsKeep(s, events[0]);
      IdsKeep(s, events[0]);
      RestKeeps(s, events[0]);
      Always(Step(s, events[0]), events[1..]);
    }
  }

  lemma InitialHolds()
    ensures Inv(INITIAL)
  {
  }

  // ---- settling ---------------------------------------------------------------------------------

  /** The ids a step settles: by their own answer, their own timeout, or the end of the process. */
  function Settles(s: State, e: Event): set<nat> {
    match e
    case Hears(m) => if m.Reply? && m.id >= 0 && m.id in s.pending then {m.id} else {}
    case Expires(id) => {id}
    case Exits(p) => if s.child == Some(p) then s.pending else {}
    case Errs(p) => if s.child == Some(p) then s.pending else {}
    case CloseResumes(gone) => if s.child.None? || gone then s.pending else {}
    case Invokes => {}
    case Launches(_) => {}
    case LaunchFails => {}
    case Registers(_) => {}
    case Closes => {}
    case CloseEnds => {}
  }

  function Reason(s: State, e: Event): Outcome {
    if e.Hears? && e.message.Reply? then e.message.outcome
    else if e.Expires? then TimedOut
    else if s.closed then ClientClosed
    else ProcessExited
  }

  /** A step settles only requests not settled before, each with the reason of that step, and
      changes no earlier outcome. */
  lemma SettledOnce(s: State, e: Event, id: nat)
    requires Inv(s) && Enabled(s, e)
    ensures id in Settles(s, e) ==> id in s.pending && id !in s.outcome
    ensures id in Step(s, e).outcome <==> id in s.outcome || id in Settles(s, e)
    ensures id in s.outcome ==> Step(s, e).outcome[id] == s.outcome[id]
    ensures id in Settles(s, e) ==> id !in Step(s, e).pending && Step(s, e).outcome[id] == Reason(s, e)
  {
    assert IdPlaced(s, id);
  }

  /** Once settled, a request keeps its outcome in every further run. */
  lemma {:induction false} OutcomeIsFinal(s: State, events: seq<Event>, id: nat)
    requires Inv(s) && Possible(s, events) && id in s.outcome
    ensures id in After(s, events).outcome && After(s, events).outcome[id] == s.outcome[id]
    decreases |events|
  {
    if events != [] {
      SettledOnce(s, events[0], id);
      Always(s, [events[0]]);
      assert After(s, [events[0]]) == Step(s, events[0]);
      OutcomeIsFinal(Step(s, events[0]), events[1..], id);
    }
  }

  /** An answer to an id that is not pending (late, repeated or made up) changes nothing. */
  lemma LateAnswerIgnored(s: State, m: Message)
    requires Inv(s) && Enabled(s, Hears(m))
    ensures Step(s, Hears(m)) == s <==> !m.Reply? || m.id < 0 || m.id !in s.pending
  {
    if m.Reply? && m.id >= 0 && m.id in s.pending {
      assert m.id !in Step(s, Hears(m)).pending;
    }
  }

  /** No call is forgotten: over every run a call that has neither failed nor been settled waits
      for a launch under way, is about to be registered, or is pending under its own id with its
      own timer running. */
  lemma NoCallForgotten(events: seq<Event>, c: nat)
    requires Possible(INITIAL, events) && c < After(INITIAL, events).calls
    ensures var s := After(INITIAL, events);
            || (c in s.joining && s.starting)
            || c in s.ready
            || c in s.failed
            || (c in s.requestOf && s.requestOf[c] in s.pending && s.requestOf[c] in s.timers && s.requestOf[c] !in s.outcome)
            || (c in s.requestOf && s.requestOf[c] in s.outcome && s.requestOf[c] !in s.pending && s.requestOf[c] !in s.timers)
  {
    InitialHolds();
    Always(INITIAL, events);
    var s := After(INITIAL, events);
    assert CallPlaced(s, c);
    if c in s.requestOf {
      assert IdPlaced(s, s.requestOf[c]);
    }
  }

  /** ... and no two calls share an id. */
  lemma IdsAreOwn(events: seq<Event>, c: nat, d: nat)
    requires Possible(INITIAL, events)
    requires c in After(INITIAL, events).requestOf && d in After(INITIAL, events).requestOf && c != d
    ensures After(INITIAL, events).requestOf[c] != After(INITIAL, events).requestOf[d]
  {
    InitialHolds();
    Always(INITIAL, events);
  }

  // ---- the process --------------------------------------------------------------------------------

  ghost predicate TwoLive(s: State) {
    exists p, q :: p in s.live && q in s.live && p != q
  }

  /** A process that runs starts while another one still runs. */
  predicate LaunchesBeside(s: State, e: Event) {
    e.Launches? && e.alive && s.live != {}
  }

  /** A second process appears exactly at such a launch, and whatever ran before it then had
      reported an error to the client and gone on running. */
  lemma SecondProcessExact(s: State, e: Event)
    requires Inv(s) && Enabled(s, e) && !TwoLive(s)
    ensures TwoLive(Step(s, e)) <==> LaunchesBeside(s, e)
    ensures LaunchesBeside(s, e) ==> s.live <= s.orphans
  {
    if LaunchesBeside(s, e) {
      var p :| p in s.live;
      assert p in Step(s, e).live && s.processes in Step(s, e).live && p != s.processes;
    }
  }

  ghost predicate EverTwoLive(s: State, events: seq<Event>)
    requires Possible(s, events)
    decreases |events|
  {
    TwoLive(s) || (events != [] && EverTwoLive(Step(s, events[0]), events[1..]))
  }

  /** The current process reports an error and goes on running. */
  predicate ErrsAlive(s: State, e: Event) {
    e.Errs? && s.child == Some(e.process) && e.process in s.live
  }

  /** The processes that have done so and have not exited since. */
  function Erred(s: State, e: Event, erred: set<nat>): set<nat> {
    if ErrsAlive(s, e) then erred + {e.process} else if e.Exits? then erred - {e.process} else erred
  }

  /** Some process reports an error while it is the current one and runs, and before it exits
      another one is launched and runs. */
  ghost predicate LaunchedAfterError(s: State, events: seq<Event>, erred: set<nat>)
    requires Possible(s, events)
    decreases |events|
  {
    events != [] &&
    ((events[0].Launches? && events[0].alive && erred != {})
     || LaunchedAfterError(Step(s, events[0]), events[1..], Erred(s, events[0], erred)))
  }

  /** Over a run two processes are ever alive at once exactly when that happens. */
  lemma {:induction false} OneProcessExact(s: State, events: seq<Event>, erred: set<nat>)
    requires Inv(s) && Possible(s, events) && !TwoLive(s)
    requires forall p :: p in erred <==> p in s.live && s.child != Some(p)
    ensures EverTwoLive(s, events) <==> LaunchedAfterError(s, events, erred)
    decreases |events|
  {
    if events != [] {
      SecondProcessExact(s, events[0]);
      if LaunchesBeside(s, events[0]) {
        assert EverTwoLive(Step(s, events[0]), events[1..]);
        var p :| p in s.live;
        assert p in erred;
      } else {
        Always(s, [events[0]]);
        assert After(s, [events[0]]) == Step(s, events[0]);
        OneProcessExact(Step(s, events[0]), events[1..], Erred(s, events[0], erred));
      }
    }
  }

  /** That can happen: the error makes the client forget a process that still runs. */
  lemma ErrorCanOrphan()
    ensures var events := [Invokes, Launches(true), Errs(0), Invokes, Launches(true)];
            Possible(INITIAL, events) && After(INITIAL, events).live == {0, 1}
  {
    var events := [Invokes, Launches(true), Errs(0), Invokes, Launches(true)];
    var a := Step(INITIAL, Invokes);
    var b := Step(a, Launches(true));
    var c := Step(b, Errs(0));
    var d := Step(c, Invokes);
    var f := Step(d, Launches(true));
    assert events[1..][1..][1..][1..][1..] == [];
    assert Possible(f, events[1..][1..][1..][1..][1..]);
    assert Possible(d, events[1..][1..][1..][1..]) && After(d, events[1..][1..][1..][1..]) == f;
    assert Possible(c, events[1..][1..][1..]) && After(c, events[1..][1..][1..]) == f;
    assert Possible(b, events[1..][1..]) && After(b, events[1..][1..]) == f;
    assert Possible(a, events[1..]) && After(a, events[1..]) == f;
  }

  /** Launches are single-flight, and once closed with no launch under way nothing starts again. */
  lemma {:induction false} ClosedStartsNothing(s: State, events: seq<Event>)
    requires Inv(s) && Possible(s, events) && s.closed && !s.starting
    ensures After(s, events).processes == s.processes && !After(s, events).starting && After(s, events).closed
    decreases |events|
  {
    if events != [] {
      Always(s, [events[0]]);
      assert After(s, [events[0]]) == Step(s, events[0]);
      ClosedStartsNothing(Step(s, events[0]), events[1..]);
    }
  }

  lemma SingleFlight(s: State, e: Event)
    requires Inv(s) && Enabled(s, e)
    ensures Step(s, e).processes != s.processes ==> s.child.None? && !Step(s, e).starting
    ensures e.Invokes? && (s.starting || s.child.Some?) ==> Step(s, e).starting == s.starting
  {
  }
}
