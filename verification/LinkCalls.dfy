/**
  Which calls the JSON-lines client refuses, and that every other one gets to its request.
 */
module LinkCalls {
  import opened Prelude
  import opened LinkClient

  /** The call is being made: refused by a closed client, made to the process that is there, or
      joining a launch. */
  predicate Makes(s: State, e: Event, c: nat) {
    e.Invokes? && s.calls == c
  }

  /** The call waits for a launch: made with no process there, and no launch has ended since. */
  function Waits(s: State, e: Event, c: nat, waits: bool): bool {
    if Makes(s, e, c) then !s.closed && s.child.None? else waits && !e.Launches? && !e.LaunchFails?
  }

  predicate Refuses(s: State, e: Event, c: nat, waits: bool) {
    (Makes(s, e, c) && s.closed) || (e.LaunchFails? && waits)
  }

  /** Over a run the call is refused at some step. */
  ghost predicate EverRefused(s: State, events: seq<Event>, c: nat, waits: bool)
    requires Possible(s, events)
    decreases |events|
  {
    events != [] &&
    (Refuses(s, events[0], c, waits) || EverRefused(Step(s, events[0]), events[1..], c, Waits(s, events[0], c, waits)))
  }

  lemma CallStep(s: State, e: Event, c: nat)
    requires Inv(s) && Enabled(s, e)
    ensures c in Step(s, e).failed <==> c in s.failed || Refuses(s, e, c, c in s.joining)
    ensures c in Step(s, e).joining <==> Waits(s, e, c, c in s.joining)
  {
    assert CallPlaced(s, c);
  }

  lemma {:induction false} RefusedFrom(s: State, events: seq<Event>, c: nat)
    requires Inv(s) && Possible(s, events)
    ensures c in After(s, events).failed <==> c in s.failed || EverRefused(s, events, c, c in s.joining)
    decreases |events|
  {
    if events != [] {
      CallStep(s, events[0], c);
      CallsKeep(s, events[0]);
      IdsKeep(s, events[0]);
      RestKeeps(s, events[0]);
      RefusedFrom(Step(s, events[0]), events[1..], c);
    }
  }

  /** Over every run a call is refused exactly when the client was closed when it was made, or it
      was made with no process there and the launch it joined failed. */
  lemma RefusedExact(events: seq<Event>, c: nat)
    requires Possible(INITIAL, events)
    ensures c in After(INITIAL, events).failed <==> EverRefused(INITIAL, events, c, false)
  {
    InitialHolds();
    RefusedFrom(INITIAL, events, c);
  }

  /** A call that was not refused can always go on: its launch can end, its request can be made,
      or, until that has an outcome, time out. */
  lemma CallNeverStuck(s: State, c: nat, alive: bool)
    requires Inv(s) && c < s.calls && c !in s.failed
    ensures c in s.joining || c in s.ready || c in s.requestOf
    ensures c in s.joining ==> Enabled(s, Launches(alive)) && Enabled(s, LaunchFails)
    ensures c in s.ready ==> Enabled(s, Registers(c))
    ensures c in s.requestOf ==> s.requestOf[c] in s.outcome || Enabled(s, Expires(s.requestOf[c]))
  {
    assert CallPlaced(s, c);
    if c in s.requestOf {
      assert IdPlaced(s, s.requestOf[c]);
    }
  }

  /** Calls and closes come at any time; a process that runs can exit, and one that was started can
      report an error. */
  lemma WorldIsFree(s: State, p: nat)
    ensures Enabled(s, Invokes) && Enabled(s, Closes)
    ensures Enabled(s, Exits(p)) <==> p in s.live
    ensures Enabled(s, Errs(p)) <==> p < s.processes
  {
  }

  ghost predicate Closed(events: seq<Event>) {
    exists i :: 0 <= i < |events| && events[i].Closes?
  }

  /** The client is closed exactly once close was called. */
  lemma {:induction false} ClosedExact(s: State, events: seq<Event>)
    requires Possible(s, events)
    ensures After(s, events).closed <==> s.closed || Closed(events)
    decreases |events|
  {
    if events != [] {
      var rest := events[1..];
      ClosedExact(Step(s, events[0]), rest);
      if Closed(rest) {
        var i :| 0 <= i < |rest| && rest[i].Closes?;
        assert events[i + 1].Closes?;
      }
      if Closed(events) {
        var i :| 0 <= i < |events| && events[i].Closes?;
        assert i > 0 ==> rest[i - 1].Closes?;
      }
    }
  }

  /** A call made to an open client with a process there goes straight on, and from then on only
      its own request settles it. */
  lemma MadeToARunningProcess(s: State)
    requires Inv(s) && !s.closed && s.child.Some?
    ensures var t := Step(s, Invokes);
            s.calls in t.ready && t.starting == s.starting && t.joining == s.joining && t.failed == s.failed
  {
  }

  /** A launch that succeeds takes every call that joined it on, and its process is the current
      one from then on. */
  lemma LaunchTakesAll(s: State, alive: bool)
    requires Inv(s) && Enabled(s, Launches(alive))
    ensures var t := Step(s, Launches(alive));
            && s.joining <= t.ready && t.joining == {} && t.failed == s.failed && !t.starting
            && t.child == Some(s.processes) && (alive <==> s.processes in t.live)
  {
  }

  /** A ready call gets the next id, a timer and a place among the pending requests. */
  lemma ReadyGetsItsId(s: State, c: nat)
    requires Inv(s) && Enabled(s, Registers(c))
    ensures var t := Step(s, Registers(c));
            && c in t.requestOf && t.requestOf[c] == s.nextId + 1 && t.requestOf[c] in t.pending && t.requestOf[c] in t.timers
            && t.pending - {s.nextId + 1} == s.pending && c !in t.ready
  {
    assert IdPlaced(s, s.nextId + 1);
  }

  /** A launch that ends, however, is no longer under way, and no call still waits for it; a
      failed one refuses the calls that joined it and changes no request. */
  lemma LaunchEnds(s: State, e: Event)
    requires Inv(s) && Enabled(s, e) && (e.Launches? || e.LaunchFails?)
    ensures var t := Step(s, e);
            && !t.starting && t.joining == {} && t.pending == s.pending && t.requestOf == s.requestOf
            && (e.LaunchFails? ==> t.failed == s.failed + s.joining && t.child.None? && t.ready == s.ready)
  {
  }

  /** A call to an open client without a process begins a launch, or joins the one under way. */
  lemma NextCallLaunches(s: State)
    requires Inv(s) && !s.closed && s.child.None?
    ensures var t := Step(s, Invokes); t.starting && s.calls in t.joining && s.joining <= t.joining && t.ready == s.ready
  {
  }

  // ---- closing ----------------------------------------------------------------------------------

  /** Closing waits for a launch under way, then for the exit of the process that is there; with
      none, or a process that is gone, it rejects what is pending at once, as closed. */
  lemma CloseExact(s: State, gone: bool)
    requires Inv(s)
    ensures s.closed ==> Step(s, Closes) == s
    ensures !s.closed ==> Step(s, Closes).closed && Step(s, Closes).closing.AwaitsLaunch? && Step(s, Closes).pending == s.pending
    ensures Enabled(s, CloseResumes(gone)) ==>
              var t := Step(s, CloseResumes(gone));
              if s.child.Some? && !gone then t.closing == AwaitsExit(s.child.value) && t.pending == s.pending
              else t.closing.Done? && t.pending == {} && forall id :: id in s.pending ==> id in t.outcome && t.outcome[id] == ClientClosed
    ensures Enabled(s, CloseEnds) ==> Step(s, CloseEnds).closing.Done? && Step(s, CloseEnds).pending == s.pending
  {
  }

  /** Nothing else moves a close, and it only moves on. */
  lemma CloseMoves(s: State, e: Event)
    requires Inv(s) && Enabled(s, e)
    ensures Step(s, e).closing != s.closing ==> e.Closes? || e.CloseResumes? || e.CloseEnds?
    ensures s.closing.Done? ==> Step(s, e).closing.Done?
    ensures s.closed ==> Step(s, e).closed
  {
  }

  /** The end of the current process rejects everything pending, with the reason that fits. */
  lemma EndRejects(s: State, e: Event)
    requires Inv(s) && Enabled(s, e) && (e.Exits? || e.Errs?)
    ensures var t := Step(s, e);
            if s.child == Some(e.process) then
              && t.child.None? && t.pending == {}
              && (forall id :: id in s.pending ==> id in t.outcome && t.outcome[id] == if s.closed then ClientClosed else ProcessExited)
            else t.child == s.child && t.pending == s.pending && t.outcome == s.outcome
    ensures Step(s, e).live == if e.Exits? then s.live - {e.process} else s.live
  {
  }
}
