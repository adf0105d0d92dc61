/**
  Noticing changes with a watcher that may drop events and a sweep that reconciles: the
  signature map of scripts/supervisor.ts under every order of writes, events and sweeps.
 */
module SweepWatch {
  import opened Prelude
  import opened SupervisorPlan

  /** `disk` is the truth, `known` the signature map, and `reported` the specification's record:
      the signature each path had when it was last noted (or at the start). */
  datatype State = State(disk: map<Path, Signature>, known: map<Path, Signature>, reported: map<Path, Signature>)

  datatype Event =
    | Writes(path: Path, signature: Option<Signature>)
    | WatcherReports(path: Path)
    | Sweeps

  function Set(m: map<Path, Signature>, p: Path, v: Option<Signature>): map<Path, Signature> {
    match v case Some(signature) => m[p := signature] case None => m - {p}
  }

  /** collectSignatures: the files below the watched roots, outside hidden and ignored directories. */
  function Collected(disk: map<Path, Signature>, walked: set<Path>): map<Path, Signature> {
    map p | p in disk && p in walked :: disk[p]
  }

  /** The paths a step passes to noteChange. */
  function Noted(s: State, e: Event, walked: set<Path>): set<Path> {
    match e
    case Writes(_, _) => {}
    case WatcherReports(p) => {p}
    case Sweeps => set p | p in s.known.Keys + s.disk.Keys && Differs(s.known, Collected(s.disk, walked), p)
  }

  function Reported(s: State, noted: set<Path>): map<Path, Signature> {
    map p | p in s.disk.Keys + s.reported.Keys && (if p in noted then p in s.disk else p in s.reported) ::
      if p in noted then s.disk[p] else s.reported[p]
  }

  function Step(s: State, e: Event, walked: set<Path>): State {
    match e
    case Writes(p, signature) => s.(disk := Set(s.disk, p, signature))
    case WatcherReports(p) => State(s.disk, Set(s.known, p, Get(s.disk, p)), Reported(s, Noted(s, e, walked)))
    case Sweeps => State(s.disk, Collected(s.disk, walked), Reported(s, Noted(s, e, walked)))
  }

  function Started(disk: map<Path, Signature>, walked: set<Path>): State {
    State(disk, Collected(disk, walked), disk)
  }

  function After(s: State, events: seq<Event>, walked: set<Path>): State
    decreases |events|
  {
    if events == [] then s else After(Step(s, events[0], walked), events[1..], walked)
  }

  // ---- the invariant ----------------------------------------------------------------------

  /** For every path the sweep walks, the map holds the signature at its last report. */
  ghost predicate Aligned(s: State, walked: set<Path>) {
    forall p :: p in walked ==> Get(s.known, p) == Get(s.reported, p)
  }

  lemma ReportedAt(s: State, noted: set<Path>, p: Path)
    ensures Get(Reported(s, noted), p) == if p in noted then Get(s.disk, p) else Get(s.reported, p)
  {
  }

  lemma StepAligned(s: State, e: Event, walked: set<Path>)
    requires Aligned(s, walked)
    ensures Aligned(Step(s, e, walked), walked)
  {
    var t := Step(s, e, walked);
    forall p | p in walked ensures Get(t.known, p) == Get(t.reported, p) {
      assert Get(s.known, p) == Get(s.reported, p);
      ReportedAt(s, Noted(s, e, walked), p);
    }
  }

  lemma {:induction false} AlwaysAligned(s: State, events: seq<Event>, walked: set<Path>)
    requires Aligned(s, walked)
    ensures Aligned(After(s, events, walked), walked)
    decreases |events|
  {
    if events != [] {
      StepAligned(s, events[0], walked);
      AlwaysAligned(Step(s, events[0], walked), events[1..], walked);
    }
  }

  // ---- what a sweep notes ------------------------------------------------------------------

  /** After any run of writes, delivered or dropped events and sweeps, a sweep notes a walked
      path exactly when it changed since it was last noted, and then none is left unnoted. */
  lemma SweepNotesExactly(disk: map<Path, Signature>, events: seq<Event>, walked: set<Path>, p: Path)
    requires p in walked
    ensures var s := After(Started(disk, walked), events, walked);
            && (p in Noted(s, Sweeps, walked) <==> Get(s.disk, p) != Get(s.reported, p))
            && Get(Step(s, Sweeps, walked).reported, p) == Get(s.disk, p)
  {
    AlwaysAligned(Started(disk, walked), events, walked);
    var s := After(Started(disk, walked), events, walked);
    assert Get(s.known, p) == Get(s.reported, p);
    ReportedAt(s, Noted(s, Sweeps, walked), p);
  }

  /** The signature a path was last written with, read off the events. */
  function LastWritten(events: seq<Event>, p: Path, was: Option<Signature>): Option<Signature>
    decreases |events|
  {
    if events == [] then was
    else LastWritten(events[1..], p, match events[0] case Writes(q, signature) => (if q == p then signature else was) case _ => was)
  }

  /** ... is what the disk holds, whatever was reported and swept in between. */
  lemma {:induction false} DiskIsLastWritten(s: State, events: seq<Event>, walked: set<Path>, p: Path)
    ensures Get(After(s, events, walked).disk, p) == LastWritten(events, p, Get(s.disk, p))
    decreases |events|
  {
    if events != [] {
      DiskIsLastWritten(Step(s, events[0], walked), events[1..], walked, p);
    }
  }

  /** A sweep right after a sweep notes nothing at all. */
  lemma SecondSweepIsQuiet(s: State, walked: set<Path>)
    ensures Noted(Step(s, Sweeps, walked), Sweeps, walked) == {}
  {
  }

  /** Outside the walked directories (a hidden directory below a recursive watch) the map is
      not aligned: the sweep takes what the watcher remembered for a deletion. It notes such a
      path exactly when the map holds it, and the map holds it only since a report found it. */
  lemma UnwalkedExact(s: State, walked: set<Path>, p: Path)
    requires p !in walked
    ensures p in Noted(s, Sweeps, walked) <==> p in s.known
    ensures p !in Step(s, Sweeps, walked).known
    ensures forall q, v :: p in Step(s, Writes(q, v), walked).known <==> p in s.known
    ensures forall q :: p in Step(s, WatcherReports(q), walked).known <==> (if p == q then p in s.disk else p in s.known)
  {
  }

  /** So one change there is noted twice: by the watcher and again by the next sweep. */
  lemma UnwalkedNotedTwice(s: State, walked: set<Path>, p: Path)
    requires p !in walked && p in s.disk
    ensures var t := Step(s, WatcherReports(p), walked);
            && Get(t.reported, p) == Get(t.disk, p)
            && p in Noted(t, Sweeps, walked)
  {
    UnwalkedExact(Step(s, WatcherReports(p), walked), walked, p);
    ReportedAt(s, {p}, p);
  }

  // ---- as it runs -----------------------------------------------------------------------------

  class SourceWatch {
    var fsSignatures: map<Path, Signature>
    ghost const walked: set<Path>
    ghost var disk: map<Path, Signature>
    ghost var reported: map<Path, Signature>

    ghost function Model(): State
      reads this
    {
      State(disk, fsSignatures, reported)
    }

    /** startSweep, with the first collection of signatures. */
    constructor (first: map<Path, Signature>, ghost disk: map<Path, Signature>, ghost walked: set<Path>)
      requires first == Collected(disk, walked)
      ensures Model() == Started(disk, walked) && this.walked == walked
    {
      this.walked, this.disk, this.reported, fsSignatures := walked, disk, disk, first;
    }

    /** rememberSignature, as the watcher's callback runs it; `stat` is what the path is now. */
    method RememberSignature(path: Path, stat: Option<Signature>)
      requires stat == Get(disk, path)
      modifies this
      ensures Model() == Step(old(Model()), WatcherReports(path), walked)
    {
      match stat {
        case Some(signature) => fsSignatures := fsSignatures[path := signature];
        case None => fsSignatures := fsSignatures - {path};
      }
      reported := Reported(old(Model()), {path});
    }

    method SweepFilesystem(next: map<Path, Signature>) returns (changed: seq<Path>)
      requires next == Collected(disk, walked)
      modifies this
      ensures Model() == Step(old(Model()), Sweeps, walked)
      ensures Ascending(changed) && forall p :: p in changed <==> p in Noted(old(Model()), Sweeps, walked)
    {
      changed := ChangedPaths(fsSignatures, next);
      fsSignatures := next;
      reported := Reported(old(Model()), Noted(old(Model()), Sweeps, walked));
      forall p ensures p in changed <==> p in Noted(old(Model()), Sweeps, walked) {
        assert p in changed <==> Differs(old(fsSignatures), next, p);
      }
    }
  }
}
