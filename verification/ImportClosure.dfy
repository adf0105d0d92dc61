/** The static import closure over a bundle's outputs (apps/web/build.ts). */
module ImportClosure {

  type Name = string

  datatype Import = Import(path: Name, statement: bool, external: bool)

  /** Every known output with its imports. */
  type Outputs = map<Name, seq<Import>>

  /** The imports the closure follows: import statements that are not external. */
  function Targets(imports: seq<Import>): seq<Name> {
    if imports == [] then []
    else
      var rest, last := Targets(imports[..|imports| - 1]), imports[|imports| - 1];
      if last.statement && !last.external then rest + [last.path] else rest
  }

  ghost predicate Edge(outputs: Outputs, a: Name, b: Name) {
    a in outputs && b in Targets(outputs[a])
  }

  /** `path` leads from a root to `n` through known outputs. */
  ghost predicate Path(outputs: Outputs, roots: seq<Name>, path: seq<Name>, n: Name) {
    && path != [] && path[0] in roots && path[|path| - 1] == n
    && (forall i :: 0 <= i < |path| ==> path[i] in outputs)
    && (forall i :: 0 <= i < |path| - 1 ==> Edge(outputs, path[i], path[i + 1]))
  }

  ghost predicate Reachable(outputs: Outputs, roots: seq<Name>, n: Name) {
    exists path :: Path(outputs, roots, path, n)
  }

  lemma {:induction false} TargetIs(imports: seq<Import>, b: Name)
    ensures b in Targets(imports) <==> exists i :: 0 <= i < |imports| && imports[i] == Import(b, true, false)
  {
    if imports != [] {
      var rest := imports[..|imports| - 1];
      TargetIs(rest, b);
      assert forall i :: 0 <= i < |rest| ==> rest[i] == imports[i];
    }
  }

  lemma RootReaches(outputs: Outputs, roots: seq<Name>, n: Name)
    requires n in roots && n in outputs
    ensures Reachable(outputs, roots, n)
  {
    assert Path(outputs, roots, [n], n);
  }

  lemma EdgeReaches(outputs: Outputs, roots: seq<Name>, a: Name, b: Name)
    requires Reachable(outputs, roots, a) && Edge(outputs, a, b) && b in outputs
    ensures Reachable(outputs, roots, b)
  {
    var path :| Path(outputs, roots, path, a);
    assert Path(outputs, roots, path + [b], b);
  }

  /** Found, still queued, or not an output at all. */
  predicate Covered(outputs: Outputs, seen: seq<Name>, queue: seq<Name>, n: Name) {
    n in seen || n in queue || n !in outputs
  }

  ghost predicate Closed(outputs: Outputs, roots: seq<Name>, seen: seq<Name>, queue: seq<Name>) {
    && (forall n :: n in roots ==> Covered(outputs, seen, queue, n))
    && (forall a, b :: a in seen && Edge(outputs, a, b) ==> Covered(outputs, seen, queue, b))
  }

  ghost predicate Sound(outputs: Outputs, roots: seq<Name>, seen: seq<Name>, queue: seq<Name>) {
    && (forall n :: n in seen ==> n in outputs && Reachable(outputs, roots, n))
    && (forall n :: n in queue && n in outputs ==> Reachable(outputs, roots, n))
  }

  ghost predicate NoDuplicates(seen: seq<Name>) {
    forall i, j :: 0 <= i < j < |seen| ==> seen[i] != seen[j]
  }

  lemma {:induction false} ClosedIsComplete(outputs: Outputs, roots: seq<Name>, seen: seq<Name>, path: seq<Name>, n: Name)
    requires Closed(outputs, roots, seen, []) && Path(outputs, roots, path, n)
    ensures n in seen
    decreases |path|
  {
    var k := |path| - 1;
    if k == 0 {
      assert Covered(outputs, seen, [], n);
    } else {
      assert Path(outputs, roots, path[..k], path[k - 1]);
      ClosedIsComplete(outputs, roots, seen, path[..k], path[k - 1]);
      assert Edge(outputs, path[k - 1], path[k]);
      assert Covered(outputs, seen, [], n);
    }
  }

  /** One visit: `cur` leaves the queue, is found, and its targets join the queue. */
  lemma VisitKeeps(outputs: Outputs, roots: seq<Name>, seen: seq<Name>, queue: seq<Name>)
    requires queue != [] && Closed(outputs, roots, seen, queue) && Sound(outputs, roots, seen, queue)
    requires queue[0] !in seen && queue[0] in outputs
    ensures Closed(outputs, roots, seen + [queue[0]], queue[1..] + Targets(outputs[queue[0]]))
    ensures Sound(outputs, roots, seen + [queue[0]], queue[1..] + Targets(outputs[queue[0]]))
  {
    var cur, rest := queue[0], queue[1..];
    var seen', queue' := seen + [cur], rest + Targets(outputs[cur]);
    assert queue == [cur] + rest;
    forall n | Covered(outputs, seen, queue, n) ensures Covered(outputs, seen', queue', n) {
    }
    forall a, b | a in seen' && Edge(outputs, a, b) ensures Covered(outputs, seen', queue', b) {
      assert a != cur ==> Covered(outputs, seen, queue, b);
    }
    forall n | n in queue' && n in outputs ensures Reachable(outputs, roots, n) {
      if n !in rest {
        EdgeReaches(outputs, roots, cur, n);
      }
    }
  }

  lemma SkipKeeps(outputs: Outputs, roots: seq<Name>, seen: seq<Name>, queue: seq<Name>)
    requires queue != [] && Closed(outputs, roots, seen, queue) && Sound(outputs, roots, seen, queue)
    requires queue[0] in seen || queue[0] !in outputs
    ensures Closed(outputs, roots, seen, queue[1..]) && Sound(outputs, roots, seen, queue[1..])
  {
    assert queue == [queue[0]] + queue[1..];
    forall n | Covered(outputs, seen, queue, n) ensures Covered(outputs, seen, queue[1..], n) {
    }
    forall a, b | a in seen && Edge(outputs, a, b) ensures Covered(outputs, seen, queue[1..], b) {
      assert Covered(outputs, seen, queue, b);
    }
  }

  lemma Bounded(outputs: Outputs, seen: seq<Name>)
    requires NoDuplicates(seen) && forall n :: n in seen ==> n in outputs
    ensures |seen| <= |outputs.Keys|
  {
    Distinct(seen);
    SubsetSize((set n | n in seen), outputs.Keys);
  }

  lemma {:induction false} Distinct(seen: seq<Name>)
    requires NoDuplicates(seen)
    ensures |(set n | n in seen)| == |seen|
  {
    if seen != [] {
      var k := |seen| - 1;
      Distinct(seen[..k]);
      assert seen == seen[..k] + [seen[k]];
      assert (set n | n in seen) == (set n | n in seen[..k]) + {seen[k]};
    }
  }

  lemma {:induction false} SubsetSize(a: set<Name>, b: set<Name>)
    requires a <= b
    ensures |a| <= |b|
    decreases a
  {
    if a != {} {
      var n :| n in a;
      SubsetSize(a - {n}, b - {n});
    }
  }

  /** The invariant of the worklist. */
  ghost predicate Exploring(outputs: Outputs, roots: seq<Name>, seen: seq<Name>, queue: seq<Name>) {
    NoDuplicates(seen) && |seen| <= |outputs.Keys| && Closed(outputs, roots, seen, queue) && Sound(outputs, roots, seen, queue)
  }

  lemma Begins(outputs: Outputs, roots: seq<Name>)
    ensures Exploring(outputs, roots, [], roots)
  {
    forall n | n in roots && n in outputs ensures Reachable(outputs, roots, n) {
      RootReaches(outputs, roots, n);
    }
  }

  lemma Visited(outputs: Outputs, roots: seq<Name>, seen: seq<Name>, queue: seq<Name>)
    requires queue != [] && Exploring(outputs, roots, seen, queue) && queue[0] !in seen && queue[0] in outputs
    ensures Exploring(outputs, roots, seen + [queue[0]], queue[1..] + Targets(outputs[queue[0]]))
  {
    VisitKeeps(outputs, roots, seen, queue);
    Bounded(outputs, seen + [queue[0]]);
  }

  lemma Skipped(outputs: Outputs, roots: seq<Name>, seen: seq<Name>, queue: seq<Name>)
    requires queue != [] && Exploring(outputs, roots, seen, queue) && (queue[0] in seen || queue[0] !in outputs)
    ensures Exploring(outputs, roots, seen, queue[1..])
  {
    SkipKeeps(outputs, roots, seen, queue);
  }

  lemma Explored(outputs: Outputs, roots: seq<Name>, seen: seq<Name>)
    requires Exploring(outputs, roots, seen, [])
    ensures forall n :: n in seen <==> Reachable(outputs, roots, n)
  {
    forall n | Reachable(outputs, roots, n) ensures n in seen {
      var path :| Path(outputs, roots, path, n);
      ClosedIsComplete(outputs, roots, seen, path, n);
    }
  }

  /** The inner loop: queue what the imports lead to. */
  method Follow(imports: seq<Import>, before: seq<Name>) returns (queue: seq<Name>)
    ensures queue == before + Targets(imports)
  {
    queue := before;
    for i := 0 to |imports|
      invariant queue == before + Targets(imports[..i])
    {
      assert imports[..i + 1][..i] == imports[..i];
      if imports[i].statement && !imports[i].external {
        queue := queue + [imports[i].path];
      }
    }
    assert imports[..|imports|] == imports;
  }

  /** staticClosure ends on every graph, cyclic or not, and returns without duplicates exactly
      the known outputs that static imports lead to. */
  method StaticClosure(outputs: Outputs, roots: seq<Name>) returns (seen: seq<Name>)
    ensures NoDuplicates(seen)
    ensures forall n :: n in seen <==> Reachable(outputs, roots, n)
  {
    seen := [];
    var queue := roots;
    Begins(outputs, roots);
    while |queue| > 0
      invariant Exploring(outputs, roots, seen, queue)
      decreases |outputs.Keys| - |seen|, |queue|
    {
      var cur := queue[0];
      if cur in seen || cur !in outputs {
        Skipped(outputs, roots, seen, queue);
        queue := queue[1..];
      } else {
        Visited(outputs, roots, seen, queue);
        seen := seen + [cur];
        queue := Follow(outputs[cur], queue[1..]);
      }
    }
    Explored(outputs, roots, seen);
  }
}
