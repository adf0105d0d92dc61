/**
  The slot queue of apps/web/src/attachmentThumbQueue.ts. A grant callback may itself request
  and release slots; it is given as the finite list of calls it makes.
 */
module ThumbQueue {

  datatype Action = Ask(grant: seq<Action>) | GiveBack(id: nat)

  datatype Entry = Entry(id: nat, grant: seq<Action>)

  datatype Status = Waiting | Granted | Released

  // ---- specification functions -----------------------------------------------------------

  /** Requests granted and not released. */
  function Held(states: seq<Status>): nat {
    if states == [] then 0
    else Held(states[..|states| - 1]) + (if states[|states| - 1].Granted? then 1 else 0)
  }

  lemma {:induction false} HeldUpdate(states: seq<Status>, i: nat, s: Status)
    requires i < |states|
    ensures Held(states[i := s]) == Held(states) - (if states[i].Granted? then 1 else 0) + (if s.Granted? then 1 else 0)
  {
    var last := |states| - 1;
    if i == last {
      assert states[i := s][..last] == states[..last];
    } else {
      assert states[i := s][..last] == states[..last][i := s];
      HeldUpdate(states[..last], i, s);
    }
  }

  lemma HeldJoin(states: seq<Status>)
    ensures Held(states + [Waiting]) == Held(states)
  {
    assert (states + [Waiting])[..|states|] == states;
  }

  /** The work a list of calls can still cause, and that of the whole line. */
  function Weight(actions: seq<Action>): nat {
    if actions == [] then 0
    else (match actions[0] case Ask(grant) => 3 + Weight(grant) case GiveBack(_) => 3) + Weight(actions[1..])
  }

  function LineWeight(line: seq<Entry>): nat {
    if line == [] then 0 else 1 + Weight(line[0].grant) + LineWeight(line[1..])
  }

  lemma {:induction false} LineWeightAdds(a: seq<Entry>, b: seq<Entry>)
    ensures LineWeight(a + b) == LineWeight(a) + LineWeight(b)
  {
    if a == [] {
      assert a + b == b;
    } else {
      assert (a + b)[1..] == a[1..] + b;
      LineWeightAdds(a[1..], b);
    }
  }

  ghost predicate InOrder(line: seq<Entry>) {
    forall i, j :: 0 <= i < j < |line| ==> line[i].id < line[j].id
  }

  ghost predicate Ascending(grants: seq<nat>) {
    forall i, j :: 0 <= i < j < |grants| ==> grants[i] < grants[j]
  }

  predicate Queues(line: seq<Entry>, id: nat) {
    exists k :: 0 <= k < |line| && line[k].id == id
  }

  /** The line is exactly the waiting requests, in the order they were made. */
  ghost predicate LineUp(line: seq<Entry>, states: seq<Status>) {
    && InOrder(line)
    && (forall k :: 0 <= k < |line| ==> line[k].id < |states| && states[line[k].id].Waiting?)
    && (forall i :: 0 <= i < |states| && states[i].Waiting? ==> Queues(line, i))
  }

  /** Grants so far went in order of request, all before whoever still waits; who was not granted
      waits or was withdrawn. */
  ghost predicate InTurn(line: seq<Entry>, states: seq<Status>, grants: seq<nat>) {
    && Ascending(grants)
    && (forall a, k :: 0 <= a < |grants| && 0 <= k < |line| ==> grants[a] < line[k].id)
    && (forall a :: 0 <= a < |grants| ==> grants[a] < |states| && !states[grants[a]].Waiting?)
    && (forall i :: 0 <= i < |states| && states[i].Granted? ==> i in grants)
  }

  /** No request ever goes back: waiting, then granted, then released (or straight there). */
  ghost predicate Advances(before: seq<Status>, after: seq<Status>) {
    && |before| <= |after|
    && forall i :: 0 <= i < |before| ==>
         (before[i].Released? ==> after[i].Released?) && (before[i].Granted? ==> !after[i].Waiting?)
  }

  lemma GrantKeepsLine(line: seq<Entry>, states: seq<Status>)
    requires line != [] && LineUp(line, states)
    ensures LineUp(line[1..], states[line[0].id := Granted])
  {
    var states' := states[line[0].id := Granted];
    forall i | 0 <= i < |states'| && states'[i].Waiting? ensures Queues(line[1..], i) {
      assert Queues(line, i);
      var k :| 0 <= k < |line| && line[k].id == i;
      assert line[1..][k - 1].id == i;
    }
  }

  lemma GrantKeepsTurn(line: seq<Entry>, states: seq<Status>, grants: seq<nat>)
    requires line != [] && LineUp(line, states) && InTurn(line, states, grants)
    ensures InTurn(line[1..], states[line[0].id := Granted], grants + [line[0].id])
  {
    var id := line[0].id;
    var grants' := grants + [id];
    assert grants'[|grants|] == id;
    forall i | 0 <= i < |states| && states[id := Granted][i].Granted? ensures i in grants' {
      assert i != id ==> i in grants;
    }
  }

  lemma JoinKeeps(line: seq<Entry>, states: seq<Status>, grants: seq<nat>, grant: seq<Action>)
    requires LineUp(line, states) && InTurn(line, states, grants)
    ensures LineUp(line + [Entry(|states|, grant)], states + [Waiting])
    ensures InTurn(line + [Entry(|states|, grant)], states + [Waiting], grants)
  {
    var line', states' := line + [Entry(|states|, grant)], states + [Waiting];
    forall i | 0 <= i < |states'| && states'[i].Waiting? ensures Queues(line', i) {
      if i < |states| {
        assert Queues(line, i);
        var k :| 0 <= k < |line| && line[k].id == i;
        assert line'[k].id == i;
      } else {
        assert line'[|line|].id == i;
      }
    }
  }

  lemma LeaveKeepsLine(line: seq<Entry>, states: seq<Status>, k: nat)
    requires k < |line| && LineUp(line, states)
    ensures LineUp(line[..k] + line[k + 1..], states[line[k].id := Released])
  {
    var line', states' := line[..k] + line[k + 1..], states[line[k].id := Released];
    forall i | 0 <= i < |states'| && states'[i].Waiting? ensures Queues(line', i) {
      assert Queues(line, i);
      var j :| 0 <= j < |line| && line[j].id == i;
      assert line'[if j < k then j else j - 1].id == i;
    }
  }

  lemma LeaveKeepsTurn(line: seq<Entry>, states: seq<Status>, grants: seq<nat>, k: nat)
    requires k < |line| && LineUp(line, states) && InTurn(line, states, grants)
    ensures InTurn(line[..k] + line[k + 1..], states[line[k].id := Released], grants)
  {
  }

  lemma ReturnKeeps(line: seq<Entry>, states: seq<Status>, grants: seq<nat>, id: nat)
    requires id < |states| && states[id].Granted? && LineUp(line, states) && InTurn(line, states, grants)
    ensures LineUp(line, states[id := Released]) && InTurn(line, states[id := Released], grants)
  {
    forall i | 0 <= i < |states| && states[id := Released][i].Waiting? ensures Queues(line, i) {
      assert states[i].Waiting?;
    }
  }

  lemma {:induction false} WithoutAt(line: seq<Entry>, k: nat)
    requires k < |line| && forall j :: 0 <= j < k ==> line[j].id != line[k].id
    ensures Without(line, line[k].id) == line[..k] + line[k + 1..]
  {
    if k > 0 {
      WithoutAt(line[1..], k - 1);
      assert line[..k] + line[k + 1..] == [line[0]] + (line[1..][..k - 1] + line[1..][k..]);
    }
  }

  // ---- what the calls come to ---------------------------------------------------------------------

  /** The queue as a value. `callbacks` is what each request asked to be called, and `made` are the
      calls that callbacks have made. */
  datatype State = State(active: int, line: seq<Entry>, states: seq<Status>, grants: seq<nat>, callbacks: seq<seq<Action>>, made: seq<Action>)

  function Without(line: seq<Entry>, id: nat): (r: seq<Entry>)
    ensures LineWeight(r) <= LineWeight(line)
  {
    if line == [] then [] else if line[0].id == id then line[1..] else [line[0]] + Without(line[1..], id)
  }

  /** The head of the line takes a slot. */
  function Taken(s: State): State
    requires s.line != []
  {
    var id := s.line[0].id;
    s.(active := s.active + 1, line := s.line[1..], states := if id < |s.states| then s.states[id := Granted] else s.states,
       grants := s.grants + [id])
  }

  /** A request joins the line. */
  function Joined(s: State, grant: seq<Action>): (t: State)
    ensures LineWeight(t.line) == LineWeight(s.line) + 1 + Weight(grant)
  {
    LineWeightAdds(s.line, [Entry(|s.states|, grant)]);
    s.(line := s.line + [Entry(|s.states|, grant)], states := s.states + [Waiting], callbacks := s.callbacks + [grant])
  }

  /** A request leaves the line, or gives its slot back. */
  function Freed(s: State, id: nat): (t: State)
    requires id < |s.states| && !s.states[id].Released?
    ensures LineWeight(t.line) <= LineWeight(s.line)
  {
    var t := s.(states := s.states[id := Released]);
    if s.states[id].Waiting? then t.(line := Without(s.line, id)) else t.(active := s.active - 1)
  }

  /** While a slot is free its callback runs to its end before the next is granted. */
  function Admitted(limit: nat, s: State): (t: State)
    ensures LineWeight(t.line) <= LineWeight(s.line)
    decreases LineWeight(s.line), 1
  {
    if s.active < limit && s.line != [] then Admitted(limit, Ran(limit, Taken(s), s.line[0].grant)) else s
  }

  /** A callback makes its calls in order. */
  function Ran(limit: nat, s: State, calls: seq<Action>): (t: State)
    ensures LineWeight(t.line) <= LineWeight(s.line) + Weight(calls)
    decreases LineWeight(s.line) + Weight(calls), 0
  {
    if calls == [] then s else Ran(limit, Called(limit, s.(made := s.made + [calls[0]]), calls[0]), calls[1..])
  }

  function Called(limit: nat, s: State, call: Action): (t: State)
    ensures LineWeight(t.line) <= LineWeight(s.line) + (match call case Ask(grant) => 1 + Weight(grant) case GiveBack(_) => 0)
    decreases LineWeight(s.line) + (match call case Ask(grant) => 2 + Weight(grant) case GiveBack(_) => 1), 1
  {
    match call
    case Ask(grant) => Asked(limit, s, grant)
    case GiveBack(id) => if id < |s.states| then GivenBack(limit, s, id) else s
  }

  function Asked(limit: nat, s: State, grant: seq<Action>): (t: State)
    ensures LineWeight(t.line) <= LineWeight(s.line) + 1 + Weight(grant)
    decreases LineWeight(s.line) + 2 + Weight(grant), 0
  {
    Admitted(limit, Joined(s, grant))
  }

  function GivenBack(limit: nat, s: State, id: nat): (t: State)
    requires id < |s.states|
    ensures LineWeight(t.line) <= LineWeight(s.line)
    decreases LineWeight(s.line) + 1, 0
  {
    if s.states[id].Released? then s else Admitted(limit, Freed(s, id))
  }

  // ---- what every call keeps ----------------------------------------------------------------------

  /** The callback of each request that waits is the one it came with. */
  ghost predicate Callbacks(line: seq<Entry>, callbacks: seq<seq<Action>>) {
    forall k :: 0 <= k < |line| ==> line[k].id < |callbacks| && line[k].grant == callbacks[line[k].id]
  }

  /** As many slots are in use as requests were granted and not released, within the limit; the
      line is whoever waits, in order, and grants went in turn. */
  ghost predicate Keeps(limit: nat, s: State) {
    && s.active == Held(s.states) && s.active <= limit
    && LineUp(s.line, s.states) && InTurn(s.line, s.states, s.grants)
    && |s.callbacks| == |s.states| && Callbacks(s.line, s.callbacks)
  }

  /** All slots are in use, or nobody waits. */
  predicate Busy(limit: nat, s: State) {
    s.active == limit || s.line == []
  }

  /** Nothing granted, released or called is taken back. */
  ghost predicate Follows(s: State, t: State) {
    Advances(s.states, t.states) && s.grants <= t.grants && s.callbacks <= t.callbacks && s.made <= t.made
  }

  lemma TakenKeeps(limit: nat, s: State)
    requires Keeps(limit, s) && s.active < limit && s.line != []
    ensures Keeps(limit, Taken(s)) && Follows(s, Taken(s))
  {
    GrantKeepsLine(s.line, s.states);
    GrantKeepsTurn(s.line, s.states, s.grants);
    HeldUpdate(s.states, s.line[0].id, Granted);
  }

  lemma JoinedKeeps(limit: nat, s: State, grant: seq<Action>)
    requires Keeps(limit, s)
    ensures Keeps(limit, Joined(s, grant)) && Follows(s, Joined(s, grant))
  {
    JoinKeeps(s.line, s.states, s.grants, grant);
    HeldJoin(s.states);
  }

  lemma LeftKeeps(limit: nat, s: State, id: nat)
    requires Keeps(limit, s) && id < |s.states| && s.states[id].Waiting?
    ensures Keeps(limit, Freed(s, id)) && Follows(s, Freed(s, id))
  {
    assert Queues(s.line, id);
    var k :| 0 <= k < |s.line| && s.line[k].id == id;
    WithoutAt(s.line, k);
    HeldUpdate(s.states, id, Released);
    LeaveKeepsLine(s.line, s.states, k);
    LeaveKeepsTurn(s.line, s.states, s.grants, k);
    LeaveKeepsCallbacks(s.line, s.callbacks, k);
  }

  lemma LeaveKeepsCallbacks(line: seq<Entry>, callbacks: seq<seq<Action>>, k: nat)
    requires k < |line| && Callbacks(line, callbacks)
    ensures Callbacks(line[..k] + line[k + 1..], callbacks)
  {
  }

  lemma ReturnedKeeps(limit: nat, s: State, id: nat)
    requires Keeps(limit, s) && id < |s.states| && s.states[id].Granted?
    ensures Keeps(limit, Freed(s, id)) && Follows(s, Freed(s, id)) && s.active > 0
  {
    HeldUpdate(s.states, id, Released);
    ReturnKeeps(s.line, s.states, s.grants, id);
  }

  /** However deep the callbacks call back in: nobody is served out of turn, no slot is lost, and
      at the end all slots are in use or nobody waits. */
  lemma {:induction false} AdmittedKeeps(limit: nat, s: State)
    requires Keeps(limit, s)
    ensures Keeps(limit, Admitted(limit, s)) && Follows(s, Admitted(limit, s)) && Busy(limit, Admitted(limit, s))
    decreases LineWeight(s.line), 1
  {
    if s.active < limit && s.line != [] {
      TakenKeeps(limit, s);
      RanKeeps(limit, Taken(s), s.line[0].grant);
      AdmittedKeeps(limit, Ran(limit, Taken(s), s.line[0].grant));
    }
  }

  lemma {:induction false} RanKeeps(limit: nat, s: State, calls: seq<Action>)
    requires Keeps(limit, s)
    ensures Keeps(limit, Ran(limit, s, calls)) && Follows(s, Ran(limit, s, calls))
    decreases LineWeight(s.line) + Weight(calls), 0
  {
    if calls != [] {
      var t := s.(made := s.made + [calls[0]]);
      CalledKeeps(limit, t, calls[0]);
      RanKeeps(limit, Called(limit, t, calls[0]), calls[1..]);
    }
  }

  /** The call had its effect: one more request, or one that is released. */
  predicate Done(s: State, call: Action, t: State) {
    match call
    case Ask(grant) => |s.states| < |t.states| && |s.callbacks| < |t.callbacks| && t.callbacks[|s.callbacks|] == grant
    case GiveBack(id) => id < |s.states| ==> id < |t.states| && t.states[id].Released?
  }

  lemma {:induction false} CalledKeeps(limit: nat, s: State, call: Action)
    requires Keeps(limit, s)
    ensures Keeps(limit, Called(limit, s, call)) && Follows(s, Called(limit, s, call))
    ensures Done(s, call, Called(limit, s, call))
    decreases LineWeight(s.line) + (match call case Ask(grant) => 2 + Weight(grant) case GiveBack(_) => 1), 1
  {
    match call
    case Ask(grant) => AskedKeeps(limit, s, grant);
    case GiveBack(id) =>
      if id < |s.states| {
        GivenBackKeeps(limit, s, id);
      }
  }

  lemma {:induction false} AskedKeeps(limit: nat, s: State, grant: seq<Action>)
    requires Keeps(limit, s)
    ensures var t := Asked(limit, s, grant);
            && Keeps(limit, t) && Follows(s, t) && Busy(limit, t)
            && |s.states| < |t.states| && |s.callbacks| < |t.callbacks| && t.callbacks[|s.callbacks|] == grant
    decreases LineWeight(s.line) + 2 + Weight(grant), 0
  {
    JoinedKeeps(limit, s, grant);
    AdmittedKeeps(limit, Joined(s, grant));
  }

  /** The second call of what a request returned does nothing; the first frees its slot or its
      place for good. */
  lemma {:induction false} GivenBackKeeps(limit: nat, s: State, id: nat)
    requires Keeps(limit, s) && id < |s.states|
    ensures var t := GivenBack(limit, s, id);
            && Keeps(limit, t) && Follows(s, t) && id < |t.states| && t.states[id].Released?
            && (if s.states[id].Released? then t == s else Busy(limit, t))
    decreases LineWeight(s.line) + 1, 0
  {
    if !s.states[id].Released? {
      if s.states[id].Waiting? {
        LeftKeeps(limit, s, id);
      } else {
        ReturnedKeeps(limit, s, id);
      }
      AdmittedKeeps(limit, Freed(s, id));
    }
  }

  // ---- every callback makes its calls ---------------------------------------------------------------

  /** The calls the callbacks of these requests make. */
  function CallsOf(callbacks: seq<seq<Action>>, grants: seq<nat>): multiset<Action> {
    if grants == [] then multiset{}
    else
      var last := grants[|grants| - 1];
      CallsOf(callbacks, grants[..|grants| - 1]) + (if last < |callbacks| then multiset(callbacks[last]) else multiset{})
  }

  lemma {:induction false} CallsOfGrows(callbacks: seq<seq<Action>>, more: seq<seq<Action>>, grants: seq<nat>)
    requires callbacks <= more && forall a :: 0 <= a < |grants| ==> grants[a] < |callbacks|
    ensures CallsOf(more, grants) == CallsOf(callbacks, grants)
    decreases |grants|
  {
    if grants != [] {
      CallsOfGrows(callbacks, more, grants[..|grants| - 1]);
    }
  }

  /** The calls the callbacks granted so far make. */
  function Owed(s: State): multiset<Action> {
    CallsOf(s.callbacks, s.grants)
  }

  lemma TakenOwes(limit: nat, s: State)
    requires Keeps(limit, s) && s.line != []
    ensures Owed(Taken(s)) == Owed(s) + multiset(s.line[0].grant) && Taken(s).made == s.made
  {
    assert Taken(s).grants[..|s.grants|] == s.grants;
  }

  lemma JoinedOwes(limit: nat, s: State, grant: seq<Action>)
    requires Keeps(limit, s)
    ensures Owed(Joined(s, grant)) == Owed(s) && Joined(s, grant).made == s.made
  {
    CallsOfGrows(s.callbacks, s.callbacks + [grant], s.grants);
  }

  /** Between two states exactly the calls of the callbacks granted meanwhile were made, and `more`. */
  ghost predicate Makes(s: State, more: multiset<Action>, t: State) {
    multiset(t.made) + Owed(s) == multiset(s.made) + more + Owed(t)
  }

  lemma MakesOn(s: State, a: multiset<Action>, t: State, b: multiset<Action>, u: State, all: multiset<Action>)
    requires Makes(s, a, t) && Makes(t, b, u) && all == a + b
    ensures Makes(s, all, u)
  {
    var (ms, mt, mu) := (multiset(s.made), multiset(t.made), multiset(u.made));
    Adds(ms, mt, mu, Owed(s), Owed(t), Owed(u), a, b);
  }

  lemma Adds(ms: multiset<Action>, mt: multiset<Action>, mu: multiset<Action>, os: multiset<Action>, ot: multiset<Action>,
             ou: multiset<Action>, a: multiset<Action>, b: multiset<Action>)
    requires mt + os == ms + a + ot && mu + ot == mt + b + ou
    ensures mu + os == ms + (a + b) + ou
  {
    forall x ensures (mu + os)[x] == (ms + (a + b) + ou)[x] {
      assert (mt + os)[x] == (ms + a + ot)[x] && (mu + ot)[x] == (mt + b + ou)[x];
    }
  }

  /** Granting owes the calls that running the callback then makes. */
  lemma TakenOn(s: State, t: State, u: State, grant: multiset<Action>)
    requires Owed(t) == Owed(s) + grant && t.made == s.made && Makes(t, grant, u)
    ensures Makes(s, multiset{}, u)
  {
    var (ms, mu, os, ou) := (multiset(s.made), multiset(u.made), Owed(s), Owed(u));
    forall x ensures (mu + os)[x] == (ms + ou)[x] {
      assert (mu + (os + grant))[x] == (ms + grant + ou)[x];
    }
  }

  lemma {:induction false} AdmittedMakes(limit: nat, s: State)
    requires Keeps(limit, s)
    ensures Makes(s, multiset{}, Admitted(limit, s))
    decreases LineWeight(s.line), 1
  {
    if s.active < limit && s.line != [] {
      var t, grant := Taken(s), s.line[0].grant;
      var u := Ran(limit, t, grant);
      TakenKeeps(limit, s);
      TakenOwes(limit, s);
      RanKeeps(limit, t, grant);
      RanMakes(limit, t, grant);
      TakenOn(s, t, u, multiset(grant));
      AdmittedMakes(limit, u);
      MakesOn(s, multiset{}, u, multiset{}, Admitted(limit, u), multiset{});
    }
  }

  /** Running a callback makes its calls besides. */
  lemma {:induction false} RanMakes(limit: nat, s: State, calls: seq<Action>)
    requires Keeps(limit, s)
    ensures Makes(s, multiset(calls), Ran(limit, s, calls))
    decreases LineWeight(s.line) + Weight(calls), 0
  {
    if calls != [] {
      var t := s.(made := s.made + [calls[0]]);
      var u := Called(limit, t, calls[0]);
      assert calls == [calls[0]] + calls[1..];
      assert Keeps(limit, t) && Makes(s, multiset{calls[0]}, t);
      CalledKeeps(limit, t, calls[0]);
      CalledMakes(limit, t, calls[0]);
      RanMakes(limit, u, calls[1..]);
      MakesOn(s, multiset{calls[0]}, t, multiset{}, u, multiset{calls[0]});
      MakesOn(s, multiset{calls[0]}, u, multiset(calls[1..]), Ran(limit, u, calls[1..]), multiset(calls));
    }
  }

  lemma {:induction false} CalledMakes(limit: nat, s: State, call: Action)
    requires Keeps(limit, s)
    ensures Makes(s, multiset{}, Called(limit, s, call))
    decreases LineWeight(s.line) + (match call case Ask(grant) => 2 + Weight(grant) case GiveBack(_) => 1), 1
  {
    match call
    case Ask(grant) => AskedMakes(limit, s, grant);
    case GiveBack(id) =>
      if id < |s.states| {
        GivenBackMakes(limit, s, id);
      }
  }

  lemma {:induction false} AskedMakes(limit: nat, s: State, grant: seq<Action>)
    requires Keeps(limit, s)
    ensures Makes(s, multiset{}, Asked(limit, s, grant))
    decreases LineWeight(s.line) + 2 + Weight(grant), 0
  {
    var t := Joined(s, grant);
    JoinedKeeps(limit, s, grant);
    JoinedOwes(limit, s, grant);
    AdmittedMakes(limit, t);
    assert Makes(s, multiset{}, t);
    MakesOn(s, multiset{}, t, multiset{}, Admitted(limit, t), multiset{});
  }

  lemma {:induction false} GivenBackMakes(limit: nat, s: State, id: nat)
    requires Keeps(limit, s) && id < |s.states|
    ensures Makes(s, multiset{}, GivenBack(limit, s, id))
    decreases LineWeight(s.line) + 1, 0
  {
    if !s.states[id].Released? {
      var t := Freed(s, id);
      if s.states[id].Waiting? {
        LeftKeeps(limit, s, id);
      } else {
        ReturnedKeeps(limit, s, id);
      }
      AdmittedMakes(limit, t);
      assert Makes(s, multiset{}, t);
      MakesOn(s, multiset{}, t, multiset{}, Admitted(limit, t), multiset{});
    }
  }

  /** Every callback granted has made its calls, each once, and nothing else was called. */
  ghost predicate Settled(s: State) {
    multiset(s.made) == Owed(s)
  }

  lemma StaysSettled(s: State, t: State)
    requires Settled(s) && Makes(s, multiset{}, t)
    ensures Settled(t)
  {
    var (m, o) := (multiset(t.made), Owed(t));
    forall x ensures m[x] == o[x] {
      assert (m + Owed(s))[x] == (multiset(s.made) + o)[x];
    }
  }

  /** Between the calls of the page no callback is half run. */
  lemma AskedSettles(limit: nat, s: State, grant: seq<Action>)
    requires Keeps(limit, s) && Settled(s)
    ensures Settled(Asked(limit, s, grant))
  {
    AskedMakes(limit, s, grant);
    StaysSettled(s, Asked(limit, s, grant));
  }

  lemma GivenBackSettles(limit: nat, s: State, id: nat)
    requires Keeps(limit, s) && id < |s.states| && Settled(s)
    ensures Settled(GivenBack(limit, s, id))
  {
    GivenBackMakes(limit, s, id);
    StaysSettled(s, GivenBack(limit, s, id));
  }

  // ---- the queue --------------------------------------------------------------------------------

  class Queue {
    const limit: nat
    var active: nat
    var waiting: seq<Entry>
    /** The `state` variable of every request's closure, by request. */
    var states: seq<Status>
    /** Every grant so far in order, every callback, and the calls they made. */
    ghost var grants: seq<nat>
    ghost var callbacks: seq<seq<Action>>
    ghost var made: seq<Action>

    ghost function Model(): State
      reads this
    {
      State(active, waiting, states, grants, callbacks, made)
    }

    ghost predicate Valid()
      reads this
    {
      Keeps(limit, Model())
    }

    constructor (limit: nat)
      ensures Valid() && Settled(Model()) && Busy(limit, Model()) && this.limit == limit
    {
      this.limit := limit;
      active, waiting, states, grants, callbacks, made := 0, [], [], [], [], [];
    }

    /** Take a slot for the head of the line. */
    method Grant() returns (grant: seq<Action>)
      requires Valid() && active < limit && waiting != []
      modifies this
      ensures Valid() && Model() == Taken(old(Model())) && grant == old(waiting)[0].grant
    {
      TakenKeeps(limit, Model());
      var entry := waiting[0];
      active := active + 1;
      waiting := waiting[1..];
      states := states[entry.id := Granted];
      grants := grants + [entry.id];
      grant := entry.grant;
    }

    /** Leave the line before being granted. */
    method Withdraw(id: nat)
      requires Valid() && id < |states| && states[id].Waiting?
      modifies this
      ensures Valid() && Model() == Freed(old(Model()), id)
    {
      LeftKeeps(limit, Model(), id);
      assert Queues(waiting, id);
      var k := 0;
      while waiting[k].id != id
        invariant k < |waiting| && forall j :: 0 <= j < k ==> waiting[j].id != id
        decreases |waiting| - k
      {
        k := k + 1;
      }
      WithoutAt(waiting, k);
      waiting := waiting[..k] + waiting[k + 1..];
      states := states[id := Released];
    }

    /** Give a granted slot back. */
    method ReturnSlot(id: nat)
      requires Valid() && id < |states| && states[id].Granted?
      modifies this
      ensures Valid() && Model() == Freed(old(Model()), id)
    {
      ReturnedKeeps(limit, Model(), id);
      active := active - 1;
      states := states[id := Released];
    }

    method Admit()
      requires Valid()
      modifies this
      ensures Valid() && Model() == Admitted(limit, old(Model()))
      decreases LineWeight(waiting), 1
    {
      while active < limit && |waiting| > 0
        invariant Valid() && Admitted(limit, Model()) == Admitted(limit, old(Model()))
        invariant LineWeight(waiting) <= old(LineWeight(waiting))
        decreases LineWeight(waiting)
      {
        var grant := Grant();
        Run(grant);
      }
    }

    /** A grant callback: the calls it makes, in order. */
    method Run(calls: seq<Action>)
      requires Valid()
      modifies this
      ensures Valid() && Model() == Ran(limit, old(Model()), calls)
      decreases LineWeight(waiting) + Weight(calls), 0
    {
      if calls == [] {
        return;
      }
      made := made + [calls[0]];
      Call(calls[0]);
      Run(calls[1..]);
    }

    method Call(call: Action)
      requires Valid()
      modifies this
      ensures Valid() && Model() == Called(limit, old(Model()), call)
      decreases LineWeight(waiting) + (match call case Ask(grant) => 2 + Weight(grant) case GiveBack(_) => 1), 1
    {
      match call
      case Ask(grant) => var _ := Request(grant);
      case GiveBack(id) =>
        if id < |states| {
          Release(id);
        }
    }

    /** Join the line. */
    method Join(grant: seq<Action>) returns (id: nat)
      requires Valid()
      modifies this
      ensures Valid() && id == old(|states|) && Model() == Joined(old(Model()), grant)
    {
      JoinedKeeps(limit, Model(), grant);
      id := |states|;
      states := states + [Waiting];
      waiting := waiting + [Entry(id, grant)];
      callbacks := callbacks + [grant];
    }

    method Request(grant: seq<Action>) returns (id: nat)
      requires Valid()
      modifies this
      ensures Valid() && Model() == Asked(limit, old(Model()), grant) && id == old(|states|)
      ensures Busy(limit, Model()) && Follows(old(Model()), Model()) && id < |states|
      ensures old(Settled(Model())) ==> Settled(Model())
      decreases LineWeight(waiting) + 2 + Weight(grant), 0
    {
      AskedKeeps(limit, Model(), grant);
      if Settled(Model()) {
        AskedSettles(limit, Model(), grant);
      }
      id := Join(grant);
      Admit();
    }

    /** The function a request returned. */
    method Release(id: nat)
      requires Valid() && id < |states|
      modifies this
      ensures Valid() && Model() == GivenBack(limit, old(Model()), id)
      ensures Follows(old(Model()), Model()) && id < |states| && states[id].Released?
      // A second call does nothing at all.
      ensures if old(states[id]).Released? then Model() == old(Model()) else Busy(limit, Model())
      ensures old(Settled(Model())) ==> Settled(Model())
      decreases LineWeight(waiting) + 1, 0
    {
      GivenBackKeeps(limit, Model(), id);
      if Settled(Model()) {
        GivenBackSettles(limit, Model(), id);
      }
      if states[id].Released? {
        return;
      }
      if states[id].Waiting? {
        Withdraw(id);
      } else {
        ReturnSlot(id);
      }
      Admit();
    }
  }
}
