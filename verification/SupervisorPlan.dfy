/**
  The decisions of scripts/supervisorPlan.ts: what a batch of changes asks for, how a crash
  loop backs off, and when a server that stopped answering counts as wedged.
 */
module SupervisorPlan {
  import opened Prelude

  // ---- actions ----------------------------------------------------------------------

  datatype Action = Ignore | Build | Restart | BuildRestart

  datatype Policy = Never | Auto | Always

  predicate NeedsBuild(a: Action) {
    a.Build? || a.BuildRestart?
  }

  predicate NeedsRestart(a: Action) {
    a.Restart? || a.BuildRestart?
  }

  function ToAction(build: bool, restart: bool): Action {
    if build then (if restart then BuildRestart else Build) else (if restart then Restart else Ignore)
  }

  function Merge(left: Action, right: Action): Action {
    ToAction(NeedsBuild(left) || NeedsBuild(right), NeedsRestart(left) || NeedsRestart(right))
  }

  function Applied(a: Action, policy: Policy): Action {
    match policy
    case Never => if NeedsBuild(a) then Build else Ignore
    case Always => if a.Build? then BuildRestart else a
    case Auto => a
  }

  /** The union of a whole batch. */
  function MergeAll(actions: seq<Action>): Action {
    if actions == [] then Ignore else Merge(MergeAll(actions[..|actions| - 1]), actions[|actions| - 1])
  }

  /** A batch does exactly the work some member asks for, whatever the order or repetition. */
  lemma {:induction false} BatchMeans(actions: seq<Action>)
    ensures NeedsBuild(MergeAll(actions)) <==> exists i :: 0 <= i < |actions| && NeedsBuild(actions[i])
    ensures NeedsRestart(MergeAll(actions)) <==> exists i :: 0 <= i < |actions| && NeedsRestart(actions[i])
  {
    if actions != [] {
      var rest := actions[..|actions| - 1];
      BatchMeans(rest);
      assert forall i :: 0 <= i < |rest| ==> rest[i] == actions[i];
    }
  }

  /** What file events leave pending: the policy is applied to each before it is merged. */
  function MergeEach(actions: seq<Action>, policy: Policy): Action {
    if actions == [] then Ignore
    else Merge(MergeEach(actions[..|actions| - 1], policy), Applied(actions[|actions| - 1], policy))
  }

  lemma MergeNeeds(a: Action, b: Action)
    ensures NeedsBuild(Merge(a, b)) == (NeedsBuild(a) || NeedsBuild(b))
    ensures NeedsRestart(Merge(a, b)) == (NeedsRestart(a) || NeedsRestart(b))
  {
  }

  /** The policy never changes whether to build; "never" drops every restart and "always" adds
      one to every build. */
  lemma AppliedNeeds(a: Action, policy: Policy)
    ensures NeedsBuild(Applied(a, policy)) == NeedsBuild(a)
    ensures NeedsRestart(Applied(a, policy)) ==
            (!policy.Never? && (NeedsRestart(a) || (policy.Always? && NeedsBuild(a))))
  {
  }

  lemma NeedsDecide(a: Action, b: Action)
    requires NeedsBuild(a) == NeedsBuild(b) && NeedsRestart(a) == NeedsRestart(b)
    ensures a == b
  {
  }

  lemma PolicyMerges(a: Action, b: Action, policy: Policy)
    ensures Applied(Merge(a, b), policy) == Merge(Applied(a, policy), Applied(b, policy))
  {
    MergeNeeds(a, b);
    MergeNeeds(Applied(a, policy), Applied(b, policy));
    AppliedNeeds(a, policy);
    AppliedNeeds(b, policy);
    AppliedNeeds(Merge(a, b), policy);
    NeedsDecide(Applied(Merge(a, b), policy), Merge(Applied(a, policy), Applied(b, policy)));
  }

  /** Commits are planned as a batch and then the policy is applied; file events meet the
      policy one by one. Both ask for the same work. */
  lemma {:induction false} ModesAgree(actions: seq<Action>, policy: Policy)
    ensures Applied(MergeAll(actions), policy) == MergeEach(actions, policy)
  {
    if actions != [] {
      var rest := actions[..|actions| - 1];
      ModesAgree(rest, policy);
      PolicyMerges(MergeAll(rest), actions[|actions| - 1], policy);
    }
  }

  lemma {:induction false} FullStaysFull(actions: seq<Action>, n: nat)
    requires n <= |actions| && MergeAll(actions[..n]).BuildRestart?
    ensures MergeAll(actions).BuildRestart?
    decreases |actions|
  {
    if n < |actions| {
      var rest := actions[..|actions| - 1];
      assert rest[..n] == actions[..n];
      FullStaysFull(rest, n);
    } else {
      assert actions[..n] == actions;
    }
  }

  /** planForPaths, given each path's class: stopping at the first full union loses nothing. */
  method PlanForPaths(classes: seq<Action>) returns (action: Action)
    ensures action == MergeAll(classes)
  {
    action := Ignore;
    for i := 0 to |classes|
      invariant action == MergeAll(classes[..i])
    {
      assert classes[..i + 1][..i] == classes[..i];
      action := Merge(action, classes[i]);
      if action == BuildRestart {
        FullStaysFull(classes, i + 1);
        return;
      }
    }
    assert classes[..|classes|] == classes;
  }

  // ---- backoff ----------------------------------------------------------------------------

  const BACKOFF_BASE_MS: nat := 1000
  const BACKOFF_MAX_MS: nat := 60000

  function Power(n: nat): nat {
    if n == 0 then 1 else 2 * Power(n - 1)
  }

  /** 1000 ms doubled for every further attempt, capped at a minute. */
  function BackoffDelay(attempt: int): nat {
    if attempt <= 1 then BACKOFF_BASE_MS
    else if BACKOFF_BASE_MS * Power(attempt - 1) < BACKOFF_MAX_MS then BACKOFF_BASE_MS * Power(attempt - 1)
    else BACKOFF_MAX_MS
  }

  lemma {:induction false} PowersGrow(m: nat, n: nat)
    requires m <= n
    ensures 1 <= Power(m) <= Power(n)
    decreases n
  {
    if m < n {
      PowersGrow(m, n - 1);
    } else if n > 0 {
      PowersGrow(m - 1, n - 1);
    }
  }

  lemma BackoffBounds(a: int, b: int)
    requires a <= b
    ensures BACKOFF_BASE_MS <= BackoffDelay(a) <= BackoffDelay(b) <= BACKOFF_MAX_MS
    ensures 1 <= a && BackoffDelay(a) < BACKOFF_MAX_MS / 2 ==> BackoffDelay(a + 1) == 2 * BackoffDelay(a)
    ensures BackoffDelay(b) == BACKOFF_MAX_MS <==> 7 <= b
  {
    if 1 < b {
      PowersGrow(if a <= 1 then 0 else a - 1, b - 1);
    }
    assert Power(5) == 32 && Power(6) == 64;
    if 7 <= b {
      PowersGrow(6, b - 1);
    } else if 1 < b {
      PowersGrow(b - 1, 5);
    }
  }

  // ---- liveness -----------------------------------------------------------------------------

  const LIVENESS_PROBE_INTERVAL_MS := 5000
  const LIVENESS_PROBE_TIMEOUT_MS := 5000

  datatype Outcome = Response | Timeout | Unreachable

  datatype Probe = Probe(outcome: Outcome, startedAt: int)

  datatype Liveness = Liveness(armed: bool, unresponsiveSince: Option<int>)

  const INITIAL_LIVENESS := Liveness(false, None)

  datatype Verdict = Verdict(state: Liveness, wedged: bool)

  function NextLiveness(state: Liveness, probe: Probe, windowMs: int): Verdict {
    if probe.outcome.Response? then Verdict(Liveness(true, None), false)
    else if probe.outcome.Unreachable? || !state.armed then Verdict(Liveness(state.armed, None), false)
    else
      var since := match state.unresponsiveSince case Some(t) => t case None => probe.startedAt;
      var stalledMs := probe.startedAt + LIVENESS_PROBE_TIMEOUT_MS - since;
      Verdict(Liveness(true, Some(since)), stalledMs >= windowMs)
  }

  /** The fold over every probe of one server process. */
  function Fold(probes: seq<Probe>, windowMs: int): Verdict {
    if probes == [] then Verdict(INITIAL_LIVENESS, false)
    else NextLiveness(Fold(probes[..|probes| - 1], windowMs).state, probes[|probes| - 1], windowMs)
  }

  /** Where the unbroken run of timeouts at the end begins. */
  function RunStart(probes: seq<Probe>): (r: nat)
    ensures r <= |probes|
    ensures forall i :: r <= i < |probes| ==> probes[i].outcome.Timeout?
    ensures 0 < r ==> !probes[r - 1].outcome.Timeout?
  {
    if probes == [] || !probes[|probes| - 1].outcome.Timeout? then |probes| else RunStart(probes[..|probes| - 1])
  }

  predicate Answered(probes: seq<Probe>) {
    exists i :: 0 <= i < |probes| && probes[i].outcome.Response?
  }

  lemma {:induction false} FoldState(probes: seq<Probe>, windowMs: int)
    ensures Fold(probes, windowMs).state.armed <==> Answered(probes)
    ensures Fold(probes, windowMs).state.unresponsiveSince ==
            if Answered(probes) && RunStart(probes) < |probes| then Some(probes[RunStart(probes)].startedAt) else None
  {
    if probes != [] {
      var rest := probes[..|probes| - 1];
      FoldState(rest, windowMs);
      assert forall i :: 0 <= i < |rest| ==> rest[i] == probes[i];
      assert Answered(probes) <==> Answered(rest) || probes[|probes| - 1].outcome.Response?;
    }
  }

  /** Wedged means: the server answered at some time, the latest probes all timed out, and
      from the start of the first of them to the end of the last the whole window passed. */
  lemma WedgedExact(probes: seq<Probe>, windowMs: int)
    ensures Fold(probes, windowMs).wedged <==>
            && Answered(probes) && RunStart(probes) < |probes|
            && probes[|probes| - 1].startedAt + LIVENESS_PROBE_TIMEOUT_MS - probes[RunStart(probes)].startedAt >= windowMs
  {
    if probes != [] {
      var rest := probes[..|probes| - 1];
      FoldState(rest, windowMs);
      assert forall i :: 0 <= i < |rest| ==> rest[i] == probes[i];
      assert Answered(probes) <==> Answered(rest) || probes[|probes| - 1].outcome.Response?;
    }
  }

  /** --liveness=<seconds>: the window in milliseconds, or a refusal. */
  function LivenessWindow(seconds: real): Option<int> {
    if seconds <= 0.0 || seconds * 1000.0 < (LIVENESS_PROBE_INTERVAL_MS + LIVENESS_PROBE_TIMEOUT_MS) as real then None
    else Some((seconds * 1000.0 + 0.5).Floor)
  }

  /** With any window the flag accepts, one silent probe never kills a server, and neither does
      any number of them before it first answered. */
  lemma KillNeedsTwoTimeouts(probes: seq<Probe>, seconds: real)
    requires LivenessWindow(seconds).Some? && Fold(probes, LivenessWindow(seconds).value).wedged
    ensures Answered(probes) && RunStart(probes) + 2 <= |probes|
  {
    WedgedExact(probes, LivenessWindow(seconds).value);
  }

  // ---- comparing two sweeps --------------------------------------------------------------------

  /** Paths stand for their place in the sort order of the source. */
  type Path = nat
  type Signature = int

  function Get(m: map<Path, Signature>, p: Path): Option<Signature> {
    if p in m then Some(m[p]) else None
  }

  predicate Differs(previous: map<Path, Signature>, next: map<Path, Signature>, p: Path) {
    Get(previous, p) != Get(next, p)
  }

  ghost predicate Ascending(s: seq<Path>) {
    forall i, j :: 0 <= i < j < |s| ==> s[i] < s[j]
  }

  lemma LastIsLargest(s: seq<Path>, p: Path)
    requires Ascending(s) && p in s
    ensures p <= s[|s| - 1]
    ensures p in s[..|s| - 1] <==> p != s[|s| - 1]
  {
    var i :| 0 <= i < |s| && s[i] == p;
    assert i < |s| - 1 ==> s[..|s| - 1][i] == p;
  }

  /** Ascending lists with the same members are the same list. */
  lemma {:induction false} AscendingIsUnique(a: seq<Path>, b: seq<Path>)
    requires Ascending(a) && Ascending(b) && forall p :: p in a <==> p in b
    ensures a == b
    decreases |a|
  {
    if |b| > 0 {
      assert b[0] in a;
    }
    if |a| > 0 {
      assert a[0] in b;
      var a', b' := a[..|a| - 1], b[..|b| - 1];
      LastIsLargest(a, b[|b| - 1]);
      LastIsLargest(b, a[|a| - 1]);
      forall p ensures p in a' <==> p in b' {
        if p in a {
          LastIsLargest(a, p);
          LastIsLargest(b, p);
        }
      }
      AscendingIsUnique(a', b');
      assert a == a' + [a[|a| - 1]] && b == b' + [b[|b| - 1]];
    }
  }

  lemma InsertedMembers(s: seq<Path>, i: nat, p: Path, q: Path)
    requires i <= |s|
    ensures q in s[..i] + [p] + s[i..] <==> q in s || q == p
  {
    assert s == s[..i] + s[i..];
  }

  lemma InsertedAscends(s: seq<Path>, i: nat, p: Path)
    requires i <= |s| && Ascending(s)
    requires 0 < i ==> s[i - 1] < p
    requires i < |s| ==> p < s[i]
    ensures Ascending(s[..i] + [p] + s[i..])
  {
    var r := s[..i] + [p] + s[i..];
    forall j, k | 0 <= j < k < |r| ensures r[j] < r[k] {
      assert r[j] == if j < i then s[j] else if j == i then p else s[j - 1];
      assert r[k] == if k < i then s[k] else if k == i then p else s[k - 1];
    }
  }

  /** One insertion of the final sort. */
  method Insert(s: seq<Path>, p: Path) returns (r: seq<Path>)
    requires Ascending(s) && p !in s
    ensures Ascending(r) && forall q :: q in r <==> q in s || q == p
  {
    var i := 0;
    while i < |s| && s[i] < p
      invariant i <= |s| && (0 < i ==> s[i - 1] < p)
    {
      i := i + 1;
    }
    InsertedAscends(s, i, p);
    forall q ensures q in s[..i] + [p] + s[i..] <==> q in s || q == p {
      InsertedMembers(s, i, p, q);
    }
    r := s[..i] + [p] + s[i..];
  }

  /** changedPaths: the ascending, duplicate-free list of the paths added, removed or rewritten. */
  method ChangedPaths(previous: map<Path, Signature>, next: map<Path, Signature>) returns (changed: seq<Path>)
    ensures Ascending(changed)
    ensures forall p :: p in changed <==> Differs(previous, next, p)
  {
    changed := [];
    var left := next.Keys;
    while left != {}
      invariant left <= next.Keys
      invariant Ascending(changed)
      invariant forall p :: p in changed <==> p in next && p !in left && Differs(previous, next, p)
    {
      var p :| p in left;
      left := left - {p};
      if Get(previous, p) != Some(next[p]) {
        changed := Insert(changed, p);
      }
    }
    left := previous.Keys;
    while left != {}
      invariant left <= previous.Keys
      invariant Ascending(changed)
      invariant forall p :: p in changed <==> Differs(previous, next, p) && (p in next || p !in left)
    {
      var p :| p in left;
      left := left - {p};
      if p !in next {
        changed := Insert(changed, p);
      }
    }
  }
}
