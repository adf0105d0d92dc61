/**
  Revealing a place in a conversation (apps/web/src/conversationReveal.ts): one pending request
  that a newer one supersedes, with handlers and abort listeners that may call back in.
 */
module ConversationReveal {
  import opened Prelude

  /** Requests are numbered. `opening` counts calls that have superseded the pending request and
      not yet installed their own: finishing it aborts its signal, and the listeners run there.
      `orphans` are requests replaced as pending without being finished. */
  datatype State = State(next: nat, pending: Option<nat>, opening: nat, timers: set<nat>, outcome: map<nat, bool>, orphans: set<nat>)

  const INITIAL := State(0, None, 0, {}, map[], {})

  datatype Event =
    | Opens
    | Installs
    | Finishes(request: nat, accepted: bool)

  predicate Enabled(s: State, e: Event) {
    match e
    case Opens => true
    case Installs => s.opening > 0
    case Finishes(request, _) => request < s.next
  }

  /** finish(): by a handler, the timeout, an abort, or a dispatch that finds it outdated. The
      first outcome stands. */
  function Finish(s: State, r: nat, accepted: bool): State {
    s.(outcome := if r in s.outcome then s.outcome else s.outcome[r := accepted],
       timers := s.timers - {r}, pending := if s.pending == Some(r) then None else s.pending)
  }

  function Open(s: State): State {
    (match s.pending case Some(p) => Finish(s, p, false) case None => s).(opening := s.opening + 1)
  }

  function Install(s: State): State
    requires s.opening > 0
  {
    s.(next := s.next + 1, opening := s.opening - 1, timers := s.timers + {s.next}, pending := Some(s.next),
       orphans := match s.pending case Some(p) => s.orphans + {p} case None => s.orphans)
  }

  function Step(s: State, e: Event): State
    requires Enabled(s, e)
  {
    match e
    case Opens => Open(s)
    case Installs => Install(s)
    case Finishes(r, accepted) => Finish(s, r, accepted)
  }

  ghost predicate Possible(s: State, events: seq<Event>)
    decreases |events|
  {
    events == [] || (Enabled(s, events[0]) && Possible(Step(s, events[0]), events[1..]))
  }

  ghost function After(s: State, events: seq<Event>): State
    requires Possible(s, events)
    decreases |events|
  {
    if events == [] then s else After(Step(s, events[0]), events[1..])
  }

  /** A request is unsettled exactly while its 30 s timer runs; the pending one is unsettled, and
      so are at most the orphans beside it; only older requests are orphans. */
  ghost predicate Inv(s: State) {
    && (forall r :: r in s.outcome ==> r < s.next)
    && (forall r :: r in s.orphans ==> r < s.next && s.pending != Some(r))
    && (forall r: nat :: r in s.timers <==> r < s.next && r !in s.outcome)
    && (s.pending.Some? ==> s.pending.value in s.timers)
    && (forall r :: r in s.timers ==> s.pending == Some(r) || r in s.orphans)
  }

  lemma {:induction false} Always(s: State, events: seq<Event>)
    requires Inv(s) && Possible(s, events)
    ensures Inv(After(s, events))
    decreases |events|
  {
    if events != [] {
      Always(Step(s, events[0]), events[1..]);
    }
  }

  /** Each promise settles once: an outcome never changes, and what is not settled has a timer
      that will settle it. */
  lemma {:induction false} SettledForGood(s: State, events: seq<Event>, r: nat)
    requires Possible(s, events) && r in s.outcome
    ensures r in After(s, events).outcome && After(s, events).outcome[r] == s.outcome[r]
    decreases |events|
  {
    if events != [] {
      SettledForGood(Step(s, events[0]), events[1..], r);
    }
  }

  lemma NothingLeftWaiting(events: seq<Event>, r: nat)
    requires Possible(INITIAL, events) && r < After(INITIAL, events).next
    ensures r in After(INITIAL, events).outcome <==> r !in After(INITIAL, events).timers
  {
    Always(INITIAL, events);
  }

  /** The step that settles a request: its own finish, or the opening of a newer one while it is
      pending. */
  predicate Settles(s: State, e: Event, r: nat) {
    r !in s.outcome && ((e.Finishes? && e.request == r) || (e.Opens? && s.pending == Some(r)))
  }

  /** A request is settled by exactly those steps, as accepted only by its own finish, and one that
      is superseded as not revealed. */
  lemma OutcomeExact(s: State, e: Event, r: nat)
    requires Inv(s) && Enabled(s, e)
    ensures var t := Step(s, e);
            && (r in t.outcome <==> r in s.outcome || Settles(s, e, r))
            && (Settles(s, e, r) ==> (t.outcome[r] <==> e.Finishes? && e.accepted))
            && t.pending == (if e.Installs? then Some(s.next)
                             else if e.Opens? || (e.Finishes? && s.pending == Some(e.request)) then None
                             else s.pending)
  {
  }

  ghost predicate TwoWait(s: State) {
    exists a, b :: a in s.timers && b in s.timers && a != b
  }

  /** A call installs its request while another one is pending. */
  predicate Overlaps(s: State, e: Event) {
    e.Installs? && s.pending.Some?
  }

  /** The step that orphans: exactly such an install, and it orphans the pending request, which
      goes on waiting beside the new one. */
  lemma OrphansExact(s: State, e: Event)
    requires Inv(s) && Enabled(s, e)
    ensures Step(s, e).orphans != s.orphans <==> Overlaps(s, e)
    ensures Overlaps(s, e) ==> Step(s, e).orphans == s.orphans + {s.pending.value} && {s.pending.value, s.next} <= Step(s, e).timers
    ensures Overlaps(s, e) ==> TwoWait(Step(s, e))
  {
    if Overlaps(s, e) {
      assert s.pending.value in Step(s, e).orphans && s.pending.value !in s.orphans;
      assert s.pending.value in Step(s, e).timers && s.next in Step(s, e).timers;
    }
  }

  ghost predicate EverTwo(s: State, events: seq<Event>)
    requires Possible(s, events)
    decreases |events|
  {
    TwoWait(s) || (events != [] && EverTwo(Step(s, events[0]), events[1..]))
  }

  ghost predicate EverOverlaps(s: State, events: seq<Event>)
    requires Possible(s, events)
    decreases |events|
  {
    events != [] && (Overlaps(s, events[0]) || EverOverlaps(Step(s, events[0]), events[1..]))
  }

  /** Over a run two requests wait at once exactly when some call installs over a pending one. */
  lemma {:induction false} TwoWaitExact(s: State, events: seq<Event>)
    requires Inv(s) && s.orphans == {} && Possible(s, events)
    ensures EverTwo(s, events) <==> EverOverlaps(s, events)
    decreases |events|
  {
    if events != [] {
      OrphansExact(s, events[0]);
      if Overlaps(s, events[0]) {
        assert TwoWait(Step(s, events[0]));
        assert EverTwo(Step(s, events[0]), events[1..]);
      } else {
        TwoWaitExact(Step(s, events[0]), events[1..]);
      }
    }
  }

  predicate Nested(s: State, e: Event) {
    e.Opens? && s.opening > 0
  }

  ghost predicate NeverNested(s: State, events: seq<Event>)
    requires Possible(s, events)
    decreases |events|
  {
    events != [] ==> !Nested(s, events[0]) && NeverNested(Step(s, events[0]), events[1..])
  }

  /** No call does that unless it was made from inside another one's opening. */
  lemma {:induction false} PlainCallsLeaveOne(s: State, events: seq<Event>)
    requires Inv(s) && s.orphans == {} && Possible(s, events) && NeverNested(s, events)
    requires s.opening <= 1 && (s.opening == 1 ==> s.pending.None?)
    ensures !EverOverlaps(s, events) && !EverTwo(s, events)
    decreases |events|
  {
    TwoWaitExact(s, events);
    if events != [] {
      OrphansExact(s, events[0]);
      PlainCallsLeaveOne(Step(s, events[0]), events[1..]);
    }
  }

  /** A nested call does orphan one: an abort listener of the superseded request asks again, and
      the outer call then replaces that request without finishing it. */
  lemma NestedCallOrphans()
    ensures var events := [Opens, Installs, Opens, Opens, Installs, Installs];
            Possible(INITIAL, events) && After(INITIAL, events).timers == {1, 2} && After(INITIAL, events).orphans == {1}
  {
    var events := [Opens, Installs, Opens, Opens, Installs, Installs];
    var a := Open(INITIAL);
    var b := Install(a);
    var c := Open(b);
    var d := Open(c);
    var f := Install(d);
    var g := Install(f);
    assert events[1..][1..][1..][1..][1..][1..] == [];
    assert Possible(f, events[1..][1..][1..][1..][1..]) && After(f, events[1..][1..][1..][1..][1..]) == g;
    assert Possible(d, events[1..][1..][1..][1..]) && After(d, events[1..][1..][1..][1..]) == g;
    assert Possible(c, events[1..][1..][1..]) && After(c, events[1..][1..][1..]) == g;
    assert Possible(b, events[1..][1..]) && After(b, events[1..][1..]) == g;
    assert Possible(a, events[1..]) && After(a, events[1..]) == g;
  }

  // ---- as it runs -----------------------------------------------------------------------------

  class Reveals {
    var next: nat
    var pending: Option<nat>
    var timers: set<nat>
    /** Every request's `settled` flag with what its promise resolved to. */
    var outcome: map<nat, bool>
    ghost var opening: nat
    ghost var orphans: set<nat>

    ghost function Model(): State
      reads this
    {
      State(next, pending, opening, timers, outcome, orphans)
    }

    /** A request is unsettled exactly while its timer runs. */
    ghost predicate Valid()
      reads this
      ensures Valid() ==> forall r: nat :: r in timers <==> r < next && r !in outcome
    {
      Inv(Model())
    }

    twostate predicate Took(e: Event)
      reads this
    {
      Enabled(old(Model()), e) && Model() == Step(old(Model()), e)
    }

    twostate lemma StaysValid(e: Event)
      requires old(Valid()) && Took(e)
      ensures Valid()
    {
    }

    constructor ()
      ensures Model() == INITIAL
    {
      next, pending, timers, outcome, opening, orphans := 0, None, {}, map[], 0, {};
    }

    method Settle(request: nat, accepted: bool)
      requires request < next
      modifies this
      ensures Took(Finishes(request, accepted))
    {
      if request !in outcome {
        outcome := outcome[request := accepted];
      }
      timers := timers - {request};
      if pending == Some(request) {
        pending := None;
      }
    }

    /** requestConversationReveal up to the listeners of the request it supersedes. */
    method Supersede()
      requires Valid()
      modifies this
      ensures Took(Opens)
    {
      if pending.Some? {
        Settle(pending.value, false);
      }
      opening := opening + 1;
    }

    /** ... and from there to its dispatch; `outdated` is a request its caller already gave up. */
    method Begin(outdated: bool) returns (request: nat)
      requires opening > 0
      modifies this
      ensures !outdated ==> Took(Installs)
      ensures outdated ==> Model() == Finish(Install(old(Model())), old(next), false)
      ensures request == old(next)
    {
      request := next;
      next := next + 1;
      orphans := match pending case Some(p) => orphans + {p} case None => orphans;
      opening := opening - 1;
      timers := timers + {request};
      pending := Some(request);
      if outdated {
        Settle(request, false);
      }
    }
  }
}
