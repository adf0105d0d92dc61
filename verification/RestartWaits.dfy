/**
  The waiting loops of scripts/restart-polyth.ts, against arbitrary probe outcomes and an
  arbitrary advancing clock, and its bundle snapshots.
 */
module RestartWaits {
  import opened Prelude

  // ---- waitUntil ------------------------------------------------------------------------------

  /** The clock after each probe; every sleep advances it. */
  ghost predicate Advances(clock: nat -> int) {
    forall n: nat :: clock(n) < clock(n + 1)
  }

  /** Probe `n` is the last of `stable` defined ones in a row. */
  ghost predicate Steady<T>(probe: nat -> Option<T>, stable: nat, n: nat) {
    && probe(n).Some? && stable <= n + 1
    && forall i: nat :: n + 1 <= i + stable && i <= n ==> probe(i).Some?
  }

  /** Nothing ended the wait before probe `n`. */
  ghost predicate StillWaiting<T>(probe: nat -> Option<T>, clock: nat -> int, deadline: int, stable: nat, n: nat) {
    forall i: nat :: i < n ==> !Steady(probe, stable, i) && clock(i) < deadline
  }

  /** How the wait ends at probe `n`: with its value when it completes the run, even past the
      deadline, and otherwise empty-handed and only once the deadline has passed. */
  ghost predicate EndsAt<T>(probe: nat -> Option<T>, clock: nat -> int, deadline: int, stable: nat, n: nat, r: Option<T>) {
    && StillWaiting(probe, clock, deadline, stable, n)
    && (if Steady(probe, stable, n) then r == probe(n) else r.None? && clock(n) >= deadline)
  }

  ghost predicate EndsIn<T>(probe: nat -> Option<T>, clock: nat -> int, start: int, timeoutMs: nat, stable: nat, n: nat, r: Option<T>) {
    EndsAt(probe, clock, start + timeoutMs, stable, n, r)
  }

  method WaitUntil<T>(probe: nat -> Option<T>, clock: nat -> int, start: int, timeoutMs: nat, stable: nat)
    returns (r: Option<T>)
    requires Advances(clock)
    ensures exists n: nat :: EndsIn(probe, clock, start, timeoutMs, stable, n, r)
  {
    var deadline := start + timeoutMs;
    var streak := 0;
    var n := 0;
    while true
      invariant StillWaiting(probe, clock, deadline, stable, n)
      invariant streak <= n && forall i: nat :: n - streak <= i < n ==> probe(i).Some?
      invariant streak < n ==> probe(n - streak - 1).None?
      decreases deadline - clock(n)
    {
      var value := probe(n);
      streak := if value.None? then 0 else streak + 1;
      SteadyExact(probe, stable, n, streak);
      if value.Some? && streak >= stable {
        assert EndsIn(probe, clock, start, timeoutMs, stable, n, value);
        return value;
      }
      if clock(n) >= deadline {
        assert EndsIn(probe, clock, start, timeoutMs, stable, n, None);
        return None;
      }
      n := n + 1;
    }
  }

  lemma SteadyExact<T>(probe: nat -> Option<T>, stable: nat, n: nat, streak: nat)
    requires streak <= n + 1 && forall i: nat :: n + 1 - streak <= i <= n ==> probe(i).Some?
    requires streak < n + 1 ==> probe(n - streak).None?
    ensures Steady(probe, stable, n) <==> probe(n).Some? && streak >= stable
  {
  }

  /** The end is unique: no other outcome fits the same probes and clock. */
  lemma EndIsUnique<T>(probe: nat -> Option<T>, clock: nat -> int, deadline: int, stable: nat, m: nat, r: Option<T>, n: nat, t: Option<T>)
    requires EndsAt(probe, clock, deadline, stable, m, r) && EndsAt(probe, clock, deadline, stable, n, t)
    ensures m == n && r == t
  {
  }

  // ---- waitForExit ---------------------------------------------------------------------------------

  const FORCE_GRACE_MS: nat := 30000
  const DRAIN_MAX_MS: nat := 1800000

  type Turn = nat

  /** What poll `n` finds: whether the server still runs, the turns it reports (None when it does
      not answer), and the clock when the turns are judged, when the grace is tested, and when
      the loop tests its deadline. */
  datatype Poll = Poll(alive: bool, turns: Option<seq<Turn>>, judgedAt: int, testedAt: int, checkedAt: int)

  /** SIGTERM is noted at `started`, and the deadline counts from `began`, a later reading. */
  ghost predicate InTime(polls: nat -> Poll, started: int, began: int) {
    && started <= began <= polls(0).judgedAt
    && forall n: nat :: polls(n).judgedAt <= polls(n).testedAt <= polls(n).checkedAt < polls(n + 1).judgedAt
  }

  function Still(held: seq<Turn>, turns: Option<seq<Turn>>): (r: seq<Turn>)
    ensures forall t :: t in r <==> t in held && (turns.Some? ==> t in turns.value)
    ensures |r| <= |held|
  {
    if held == [] then []
    else if turns.Some? && held[0] !in turns.value then Still(held[1..], turns)
    else [held[0]] + Still(held[1..], turns)
  }

  /** The turns held at SIGTERM that every answered poll up to `n` still reported. */
  function Held(held: seq<Turn>, polls: nat -> Poll, n: nat): seq<Turn> {
    if n == 0 then Still(held, polls(0).turns) else Still(Held(held, polls, n - 1), polls(n).turns)
  }

  /** When the last held turn was seen gone. */
  function GraceFrom(held: seq<Turn>, polls: nat -> Poll, started: int, n: nat): Option<int> {
    if held == [] then Some(started)
    else if n > 0 && GraceFrom(held, polls, started, n - 1).Some? then GraceFrom(held, polls, started, n - 1)
    else if Held(held, polls, n) == [] then Some(polls(n).judgedAt) else None
  }

  /** Poll `n` decides to kill: the grace is over, or the drain limit is. */
  predicate GraceOver(held: seq<Turn>, polls: nat -> Poll, started: int, n: nat) {
    var from := GraceFrom(held, polls, started, n);
    from.Some? && polls(n).testedAt - from.value >= FORCE_GRACE_MS
  }

  ghost predicate Draining(held: seq<Turn>, polls: nat -> Poll, started: int, began: int, n: nat) {
    forall i: nat :: i < n ==>
      polls(i).alive && !GraceOver(held, polls, started, i) && polls(i).checkedAt < began + DRAIN_MAX_MS
  }

  lemma {:induction false} HeldShrinks(held: seq<Turn>, polls: nat -> Poll, n: nat, t: Turn)
    ensures t in Held(held, polls, n) <==>
            t in held && forall i: nat :: i <= n && polls(i).turns.Some? ==> t in polls(i).turns.value
    ensures |Held(held, polls, n)| <= |held|
  {
    if n > 0 {
      HeldShrinks(held, polls, n - 1, t);
    }
  }

  lemma {:induction false} GraceKnown(held: seq<Turn>, polls: nat -> Poll, started: int, began: int, n: nat)
    requires InTime(polls, started, began)
    ensures started <= polls(n).judgedAt
    ensures var from := GraceFrom(held, polls, started, n);
            from.Some? ==> started <= from.value <= polls(n).judgedAt
  {
    assert polls(0).judgedAt <= polls(0).testedAt <= polls(0).checkedAt < polls(0 + 1).judgedAt;
    if n > 0 {
      GraceKnown(held, polls, started, began, n - 1);
      assert polls(n - 1).judgedAt <= polls(n - 1).testedAt <= polls(n - 1).checkedAt < polls(n - 1 + 1).judgedAt;
    }
  }

  /** How the wait ends at poll `n`: the server is gone, or it is killed because its grace or the
      drain limit is over, and no earlier poll ended it. */
  ghost predicate ExitsAt(held: seq<Turn>, polls: nat -> Poll, started: int, began: int, n: nat, killed: bool) {
    && Draining(held, polls, started, began, n)
    && (if polls(n).alive then killed && (GraceOver(held, polls, started, n) || polls(n).checkedAt >= began + DRAIN_MAX_MS)
        else !killed)
  }

  ghost predicate Exits(force: bool, heldBy: seq<Turn>, polls: nat -> Poll, started: int, began: int, n: nat, killed: bool) {
    ExitsAt(if force then [] else heldBy, polls, started, began, n, killed)
  }

  /** Waiting for the draining server ends, and kills only a server that still runs: 30 s after
      the last held turn was gone (or at once after 30 s with --force), or at the drain limit. */
  method WaitForExit(polls: nat -> Poll, started: int, began: int, force: bool, heldBy: seq<Turn>) returns (killed: bool)
    requires InTime(polls, started, began)
    ensures exists n: nat :: Exits(force, heldBy, polls, started, began, n, killed)
  {
    ghost var held := if force then [] else heldBy;
    var waitingFor := if force then [] else heldBy;
    var graceFrom := if waitingFor == [] then Some(started) else None;
    var k := 0;
    while true
      invariant Draining(held, polls, started, began, k)
      invariant k == 0 ==> waitingFor == held && graceFrom == if held == [] then Some(started) else None
      invariant k > 0 ==> graceFrom == GraceFrom(held, polls, started, k - 1)
      invariant k > 0 && graceFrom.None? ==> waitingFor == Held(held, polls, k - 1)
      decreases began + DRAIN_MAX_MS - polls(k).checkedAt
    {
      if !polls(k).alive {
        assert Exits(force, heldBy, polls, started, began, k, false);
        return false;
      }
      if graceFrom.None? {
        waitingFor := Still(waitingFor, polls(k).turns);
        if waitingFor == [] {
          graceFrom := Some(polls(k).judgedAt);
        }
      }
      if graceFrom.Some? && polls(k).testedAt - graceFrom.value >= FORCE_GRACE_MS {
        assert Exits(force, heldBy, polls, started, began, k, true);
        return true;
      }
      if polls(k).checkedAt >= began + DRAIN_MAX_MS {
        assert Exits(force, heldBy, polls, started, began, k, true);
        return true;
      }
      assert polls(k).checkedAt < polls(k + 1).judgedAt <= polls(k + 1).testedAt <= polls(k + 1).checkedAt;
      k := k + 1;
    }
  }

  /** The polls leave no other end. */
  lemma ExitIsUnique(held: seq<Turn>, polls: nat -> Poll, started: int, began: int, m: nat, a: bool, n: nat, b: bool)
    requires ExitsAt(held, polls, started, began, m, a) && ExitsAt(held, polls, started, began, n, b)
    ensures m == n && a == b
  {
  }

  /** Poll `m` is the one that saw the last held turn gone. */
  ghost predicate LastGoneAt(held: seq<Turn>, polls: nat -> Poll, m: nat) {
    Held(held, polls, m) == [] && (m > 0 ==> Held(held, polls, m - 1) != [])
  }

  /** The grace is over exactly when it has passed in full since SIGTERM with nothing held then,
      or since the poll that saw the last held turn gone; either comes after SIGTERM. */
  lemma KillIsLate(held: seq<Turn>, polls: nat -> Poll, started: int, began: int, n: nat)
    requires InTime(polls, started, began)
    ensures GraceOver(held, polls, started, n) <==>
            if held == [] then polls(n).testedAt >= started + FORCE_GRACE_MS
            else exists m: nat :: m <= n && LastGoneAt(held, polls, m) && polls(n).testedAt >= polls(m).judgedAt + FORCE_GRACE_MS
    ensures GraceOver(held, polls, started, n) ==> polls(n).testedAt >= started + FORCE_GRACE_MS
  {
    GraceKnown(held, polls, started, began, n);
    if held != [] {
      if GraceFrom(held, polls, started, n).Some? {
        var m := GraceFoundAt(held, polls, started, n);
      }
      forall m: nat | m <= n && LastGoneAt(held, polls, m)
        ensures GraceFrom(held, polls, started, n) == Some(polls(m).judgedAt)
      {
        GraceStartsAt(held, polls, started, m, n);
      }
    }
  }

  lemma {:induction false} GraceFoundAt(held: seq<Turn>, polls: nat -> Poll, started: int, n: nat) returns (m: nat)
    requires held != [] && GraceFrom(held, polls, started, n).Some?
    ensures m <= n && LastGoneAt(held, polls, m) && GraceFrom(held, polls, started, n) == Some(polls(m).judgedAt)
  {
    if n > 0 && GraceFrom(held, polls, started, n - 1).Some? {
      m := GraceFoundAt(held, polls, started, n - 1);
    } else {
      m := n;
      if n > 0 && Held(held, polls, n - 1) == [] {
        GraceWhenGone(held, polls, started, n - 1);
      }
    }
  }

  lemma GraceWhenGone(held: seq<Turn>, polls: nat -> Poll, started: int, n: nat)
    requires Held(held, polls, n) == []
    ensures GraceFrom(held, polls, started, n).Some?
  {
  }

  lemma {:induction false} NoGraceBefore(held: seq<Turn>, polls: nat -> Poll, started: int, n: nat)
    requires held != [] && Held(held, polls, n) != []
    ensures GraceFrom(held, polls, started, n).None?
  {
    if n > 0 {
      NoGraceBefore(held, polls, started, n - 1);
    }
  }

  lemma {:induction false} GraceStartsAt(held: seq<Turn>, polls: nat -> Poll, started: int, m: nat, n: nat)
    requires held != [] && LastGoneAt(held, polls, m) && m <= n
    ensures GraceFrom(held, polls, started, n) == Some(polls(m).judgedAt)
    decreases n
  {
    if n > m {
      GraceStartsAt(held, polls, started, m, n - 1);
    } else if m > 0 {
      NoGraceBefore(held, polls, started, m - 1);
    }
  }

  /** No server is killed while a held turn is reported and the drain limit is not reached. */
  lemma HeldTurnProtects(held: seq<Turn>, polls: nat -> Poll, started: int, n: nat, t: Turn)
    requires t in held && forall i: nat :: i <= n && polls(i).turns.Some? ==> t in polls(i).turns.value
    ensures !GraceOver(held, polls, started, n)
  {
    NoGraceWhileHeld(held, polls, started, n, t);
  }

  lemma {:induction false} NoGraceWhileHeld(held: seq<Turn>, polls: nat -> Poll, started: int, n: nat, t: Turn)
    requires t in held && forall i: nat :: i <= n && polls(i).turns.Some? ==> t in polls(i).turns.value
    ensures GraceFrom(held, polls, started, n).None?
  {
    HeldShrinks(held, polls, n, t);
    if n > 0 {
      NoGraceWhileHeld(held, polls, started, n - 1, t);
    }
  }

  // ---- snapshots ---------------------------------------------------------------------------------------

  type Path = string
  type Disk = map<Path, string>

  datatype Saved = Saved(dir: Path, copy: Path)

  /** The saved directories and their copies are all different paths. */
  ghost predicate Apart(saved: seq<Saved>) {
    && (forall i, j :: 0 <= i < j < |saved| ==> saved[i].dir != saved[j].dir && saved[i].copy != saved[j].copy)
    && (forall i, j :: 0 <= i < |saved| && 0 <= j < |saved| ==> saved[i].dir != saved[j].copy)
  }

  function RestoreOne(disk: Disk, s: Saved): Disk {
    if s.copy in disk then disk[s.dir := disk[s.copy]] - {s.copy} else disk
  }

  function Restored(disk: Disk, saved: seq<Saved>): Disk {
    if saved == [] then disk else RestoreOne(Restored(disk, saved[..|saved| - 1]), saved[|saved| - 1])
  }

  /** restoreBundles. */
  method RestoreBundles(disk: Disk, saved: seq<Saved>) returns (after: Disk)
    ensures after == Restored(disk, saved)
  {
    after := disk;
    for i := 0 to |saved|
      invariant after == Restored(disk, saved[..i])
    {
      assert saved[..i + 1][..i] == saved[..i];
      if saved[i].copy in after {
        after := after[saved[i].dir := after[saved[i].copy]] - {saved[i].copy};
      }
    }
    assert saved[..|saved|] == saved;
  }

  function At(disk: Disk, p: Path): Option<string> {
    if p in disk then Some(disk[p]) else None
  }

  /** Where a path's content comes from after restoring. */
  lemma {:induction false} RestoredAt(disk: Disk, saved: seq<Saved>, p: Path)
    requires Apart(saved)
    ensures forall i :: 0 <= i < |saved| && saved[i].dir == p ==>
              At(Restored(disk, saved), p) == if saved[i].copy in disk then At(disk, saved[i].copy) else At(disk, p)
    ensures forall i :: 0 <= i < |saved| && saved[i].copy == p ==> At(Restored(disk, saved), p).None?
    ensures (forall i :: 0 <= i < |saved| ==> saved[i].dir != p && saved[i].copy != p) ==> At(Restored(disk, saved), p) == At(disk, p)
  {
    if saved != [] {
      var rest, last := saved[..|saved| - 1], saved[|saved| - 1];
      RestoredAt(disk, rest, p);
      RestoredAt(disk, rest, last.copy);
      assert forall i :: 0 <= i < |rest| ==> rest[i] == saved[i];
    }
  }

  /** Whatever a failed build did to the saved directories, restoring brings their contents back,
      and restoring again (the abort handler racing the build) changes nothing. */
  lemma RestoreUndoesBuild(before: Disk, after: Disk, saved: seq<Saved>, i: nat)
    requires Apart(saved) && i < |saved| && saved[i].copy in before && At(before, saved[i].copy) == At(before, saved[i].dir)
    requires forall k :: 0 <= k < |saved| ==> At(after, saved[k].copy) == At(before, saved[k].copy)
    ensures At(Restored(after, saved), saved[i].dir) == At(before, saved[i].dir)
  {
    RestoredAt(after, saved, saved[i].dir);
    assert At(after, saved[i].copy) == At(before, saved[i].copy);
  }

  lemma RestoreTwice(disk: Disk, saved: seq<Saved>)
    requires Apart(saved)
    ensures Restored(Restored(disk, saved), saved) == Restored(disk, saved)
  {
    forall i | 0 <= i < |saved| ensures saved[i].copy !in Restored(disk, saved) {
      RestoredAt(disk, saved, saved[i].copy);
    }
    NothingToRestore(Restored(disk, saved), saved);
  }

  lemma {:induction false} NothingToRestore(disk: Disk, saved: seq<Saved>)
    requires forall i :: 0 <= i < |saved| ==> saved[i].copy !in disk
    ensures Restored(disk, saved) == disk
  {
    if saved != [] {
      NothingToRestore(disk, saved[..|saved| - 1]);
    }
  }
}
