/**
  createPolythLinkClient as it runs: closure variables changed in place. Each method is one
  stretch of the source between two awaits and one step of LinkClient, whose invariant `Valid`
  every call keeps.
 */
module LinkClientObject {
  import opened Prelude
  import opened LinkClient

  /** What the specification remembers of processes, calls and outcomes. */
  datatype Ledger = Ledger(
    processes: nat, live: set<nat>, orphans: set<nat>, calls: nat, joining: set<nat>, ready: set<nat>,
    failed: set<nat>, requestOf: map<nat, nat>, outcome: map<nat, Outcome>)

  lemma SettledStep(outcome: map<nat, Outcome>, ids: set<nat>, id: nat, o: Outcome)
    requires id in ids
    ensures Settled(outcome[id := o], ids - {id}, o) == Settled(outcome, ids, o)
  {
  }

  class PolythLinkClient {
    var child: Option<nat>
    var starting: bool
    var closed: bool
    var closing: Closing
    var nextId: nat
    /** The pending requests and their timers, by id. */
    var pending: set<nat>
    var timers: set<nat>
    ghost var ledger: Ledger

    ghost function Model(): State
      reads this
    {
      State(child, starting, closed, closing, nextId, pending, timers, ledger.processes, ledger.live, ledger.orphans,
            ledger.calls, ledger.joining, ledger.ready, ledger.failed, ledger.requestOf, ledger.outcome)
    }

    /** A timer runs exactly for each pending request. */
    ghost predicate Valid()
      reads this
      ensures Valid() ==> timers == pending
    {
      Inv(Model())
    }

    twostate predicate Took(e: Event)
      reads this
    {
      Enabled(old(Model()), e) && Model() == Step(old(Model()), e)
    }

    twostate lemma StaysValid(e: Event)
      requires old(Valid()) && Took(e)
      ensures Valid()
    {
      CallsKeep(old(Model()), e);
      IdsKeep(old(Model()), e);
      RestKeeps(old(Model()), e);
    }

    constructor ()
      ensures Model() == INITIAL
    {
      child, starting, closed, closing, nextId := None, false, false, Open, 0;
      pending, timers := {}, {};
      ledger := Ledger(0, {}, {}, 0, {}, {}, {}, map[], map[]);
    }

    ghost method Note(id: nat, o: Outcome)
      modifies this`ledger
      ensures ledger == old(ledger).(outcome := old(ledger).outcome[id := o])
    {
      ledger := ledger.(outcome := ledger.outcome[id := o]);
    }

    /** Clear one timer and reject its request. */
    method Drop(id: nat, ghost o: Outcome)
      modifies this
      ensures Model() == old(Model()).(timers := old(timers) - {id}, outcome := old(ledger).outcome[id := o])
    {
      timers := timers - {id};
      Note(id, o);
    }

    /** rejectPending: every pending request, one after the other. */
    method RejectAll(o: Outcome)
      modifies this
      ensures Model() == RejectPending(old(Model()), o)
    {
      var left := pending;
      while left != {}
        invariant left <= pending
        invariant Model() == old(Model()).(timers := timers, outcome := ledger.outcome)
        invariant timers - left == old(timers) - pending
        invariant Settled(ledger.outcome, left, o) == Settled(old(ledger).outcome, pending, o)
      {
        var id :| id in left;
        SettledStep(ledger.outcome, left, id, o);
        left := left - {id};
        Drop(id, o);
      }
      assert Settled(ledger.outcome, left, o) == ledger.outcome;
      pending := {};
    }

    /** invoke up to `await running()`. */
    method BeginInvoke()
      modifies this
      ensures Took(Invokes)
    {
      var c := ledger.calls;
      if closed {
        ledger := ledger.(calls := c + 1, failed := ledger.failed + {c});
        return;
      }
      if child.Some? {
        ledger := ledger.(calls := c + 1, ready := ledger.ready + {c});
        return;
      }
      starting := true;
      ledger := ledger.(calls := c + 1, joining := ledger.joining + {c});
    }

    /** launch after the data directory exists, or when it could not be made. */
    method OnLaunched(ok: bool, process: nat, alive: bool)
      requires Enabled(Model(), if ok then Launches(alive) else LaunchFails) && process == ledger.processes
      modifies this
      ensures Took(if ok then Launches(alive) else LaunchFails)
    {
      starting := false;
      if !ok {
        ledger := ledger.(joining := {}, failed := ledger.failed + ledger.joining);
        return;
      }
      child := Some(process);
      ledger := ledger.(processes := process + 1, live := if alive then ledger.live + {process} else ledger.live,
                        joining := {}, ready := ledger.ready + ledger.joining);
    }

    /** invoke once the process is there; the request is written under the id returned. */
    method RegisterRequest(ghost call: nat) returns (id: nat)
      requires Enabled(Model(), Registers(call))
      modifies this
      ensures Took(Registers(call)) && id == nextId
    {
      nextId := nextId + 1;
      id := nextId;
      timers := timers + {id};
      pending := pending + {id};
      ledger := ledger.(ready := ledger.ready - {call}, requestOf := ledger.requestOf[call := id]);
    }

    /** `thrown` when reading the `id` of null throws. */
    method HandleLine(message: Message) returns (thrown: bool)
      requires Enabled(Model(), Hears(message))
      modifies this
      ensures Took(Hears(message)) && (thrown <==> message.NullLine?)
    {
      thrown := message.NullLine?;
      if !message.Reply? || message.id < 0 || message.id !in pending {
        return;
      }
      pending := pending - {message.id};
      timers := timers - {message.id};
      Note(message.id, message.outcome);
    }

    method OnTimeout(id: nat)
      requires Enabled(Model(), Expires(id))
      modifies this
      ensures Took(Expires(id))
    {
      timers := timers - {id};
      pending := pending - {id};
      Note(id, TimedOut);
    }

    method Ended(process: nat)
      modifies this
      ensures Model() == End(old(Model()), process)
    {
      if child != Some(process) {
        return;
      }
      child := None;
      RejectAll(if closed then ClientClosed else ProcessExited);
    }

    /** The process ends, or reports an error and may go on running. */
    method OnEnd(process: nat, exited: bool)
      requires Enabled(Model(), if exited then Exits(process) else Errs(process))
      modifies this
      ensures Took(if exited then Exits(process) else Errs(process))
    {
      if exited {
        ledger := ledger.(live := ledger.live - {process});
      } else if process in ledger.live {
        ledger := ledger.(orphans := ledger.orphans + {process});
      }
      Ended(process);
    }

    method Close()
      modifies this
      ensures Took(Closes)
    {
      if closed {
        return;
      }
      closed := true;
      closing := AwaitsLaunch;
    }

    /** close after the launch it may have waited for; `gone` is whether the process has exited. */
    method OnCloseResumed(gone: bool)
      requires Enabled(Model(), CloseResumes(gone))
      modifies this
      ensures Took(CloseResumes(gone))
    {
      if child.None? || gone {
        closing := Done;
        RejectAll(ClientClosed);
      } else {
        closing := AwaitsExit(child.value);
      }
    }
  }
}
