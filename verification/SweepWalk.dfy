/** The walk of the reconciliation sweep (collectSweepSignatures in scripts/supervisorPlan.ts). */
module SweepWalk {
  import opened Prelude

  type Name = string
  type Path = seq<Name>
  type Signature = int

  /** A file whose stat fails was removed while the walk went on. */
  datatype Kind = File(stat: Option<Signature>) | Directory(entries: seq<Node>) | Other

  datatype Node = Node(name: Name, kind: Kind)

  datatype Root = Root(path: Path, recursive: bool, entries: seq<Node>)

  /** What every walk is given: which directory names it descends into, and which paths lie
      inside the repository. */
  datatype Rules = Rules(sweepable: Name -> bool, inside: Path -> bool)

  ghost predicate DistinctNames(entries: seq<Node>) {
    && (forall i, j :: 0 <= i < j < |entries| ==> entries[i].name != entries[j].name)
    && (forall i :: 0 <= i < |entries| && entries[i].kind.Directory? ==> DistinctNames(entries[i].kind.entries))
  }

  /** The signature the walk can see at `path`, relative to a directory with these entries. */
  function Seen(rules: Rules, entries: seq<Node>, recursive: bool, path: Path): Option<Signature>
    decreases entries
  {
    if entries == [] || path == [] then None
    else if entries[0].name != path[0] then Seen(rules, entries[1..], recursive, path)
    else SeenIn(rules, entries[0], recursive, path)
  }

  function SeenIn(rules: Rules, node: Node, recursive: bool, path: Path): Option<Signature>
    requires path != []
    decreases node
  {
    match node.kind
    case File(stat) => if |path| == 1 then stat else None
    case Directory(entries) =>
      if recursive && rules.sweepable(node.name) && |path| > 1 then Seen(rules, entries, true, path[1..]) else None
    case Other => None
  }

  /** What a walk below `dir` finds at a path, inside the repository. */
  function Found(rules: Rules, dir: Path, entries: seq<Node>, recursive: bool, p: Path): Option<Signature> {
    if dir <= p && |dir| < |p| && rules.inside(p) then Seen(rules, entries, recursive, p[|dir|..]) else None
  }

  function Get(m: map<Path, Signature>, p: Path): Option<Signature> {
    if p in m then Some(m[p]) else None
  }

  function Over(found: Option<Signature>, before: Option<Signature>): Option<Signature> {
    if found.Some? then found else before
  }

  lemma {:induction false} SeenLast(rules: Rules, entries: seq<Node>, node: Node, recursive: bool, path: Path)
    requires DistinctNames(entries + [node]) && path != []
    ensures Seen(rules, entries + [node], recursive, path) ==
            if node.name == path[0] then SeenIn(rules, node, recursive, path) else Seen(rules, entries, recursive, path)
    ensures node.name == path[0] ==> Seen(rules, entries, recursive, path).None?
  {
    if entries != [] {
      assert (entries + [node])[1..] == entries[1..] + [node];
      assert (entries + [node])[0] == entries[0] && (entries + [node])[|entries|] == node;
      assert DistinctNames(entries[1..] + [node]) by {
        assert forall i :: 0 <= i < |entries| ==> (entries[1..] + [node])[i] == (entries + [node])[i + 1];
      }
      SeenLast(rules, entries[1..], node, recursive, path);
    }
  }

  /** A path through a hidden or ignored directory below the root is never walked. */
  lemma {:induction false} SkippedNeverSeen(rules: Rules, entries: seq<Node>, recursive: bool, path: Path, k: nat)
    requires k + 1 < |path| && !rules.sweepable(path[k])
    ensures Seen(rules, entries, recursive, path).None?
    decreases entries
  {
    if entries != [] {
      if entries[0].name != path[0] {
        SkippedNeverSeen(rules, entries[1..], recursive, path, k);
      } else if entries[0].kind.Directory? && k > 0 {
        SkippedNeverSeen(rules, entries[0].kind.entries, true, path[1..], k - 1);
      }
    }
  }

  /** Nothing below a subdirectory is walked from a root that is not recursive. */
  lemma {:induction false} ShallowSeesOwnFiles(rules: Rules, entries: seq<Node>, path: Path)
    requires |path| > 1
    ensures Seen(rules, entries, false, path).None?
  {
    if entries != [] {
      ShallowSeesOwnFiles(rules, entries[1..], path);
    }
  }

  /** visit(): files of this directory, then of every directory it may enter. */
  method Visit(rules: Rules, dir: Path, entries: seq<Node>, recursive: bool, before: map<Path, Signature>)
    returns (signatures: map<Path, Signature>)
    requires DistinctNames(entries)
    ensures forall p :: Get(signatures, p) == Over(Found(rules, dir, entries, recursive, p), Get(before, p))
    decreases entries
  {
    signatures := before;
    for i := 0 to |entries|
      invariant forall p :: Get(signatures, p) == Over(Found(rules, dir, entries[..i], recursive, p), Get(before, p))
    {
      var node, soFar := entries[i], signatures;
      var absolute := dir + [node.name];
      match node.kind {
        case Directory(inner) =>
          if recursive && rules.sweepable(node.name) {
            signatures := Visit(rules, absolute, inner, true, signatures);
          }
        case File(stat) =>
          if rules.inside(absolute) && stat.Some? {
            signatures := signatures[absolute := stat.value];
          }
        case Other =>
      }
      forall p ensures Get(signatures, p) == Over(Found(rules, dir, entries[..i + 1], recursive, p), Get(before, p)) {
        EntryWalked(rules, dir, entries, i, recursive, p);
        assert Get(soFar, p) == Over(Found(rules, dir, entries[..i], recursive, p), Get(before, p));
      }
    }
    assert entries[..|entries|] == entries;
  }

  /** What one entry adds to the walk. */
  function Added(rules: Rules, dir: Path, node: Node, recursive: bool, p: Path): Option<Signature> {
    match node.kind
    case Directory(inner) =>
      if recursive && rules.sweepable(node.name) then Found(rules, dir + [node.name], inner, true, p) else None
    case File(stat) => if p == dir + [node.name] && rules.inside(p) then stat else None
    case Other => None
  }

  lemma AddedHere(rules: Rules, dir: Path, node: Node, recursive: bool, rest: Path)
    requires rest != [] && rest[0] == node.name && rules.inside(dir + rest)
    ensures Added(rules, dir, node, recursive, dir + rest) == SeenIn(rules, node, recursive, rest)
  {
    var p, sub := dir + rest, dir + [node.name];
    assert p == sub + rest[1..];
    assert p[|sub|..] == rest[1..];
    assert |rest| == 1 <==> p == sub;
  }

  lemma AddedElsewhere(rules: Rules, dir: Path, node: Node, recursive: bool, p: Path)
    requires !(dir + [node.name] <= p) || !rules.inside(p)
    ensures Added(rules, dir, node, recursive, p).None?
  {
  }

  lemma EntryWalked(rules: Rules, dir: Path, entries: seq<Node>, i: nat, recursive: bool, p: Path)
    requires i < |entries| && DistinctNames(entries)
    ensures Found(rules, dir, entries[..i + 1], recursive, p)
         == Over(Added(rules, dir, entries[i], recursive, p), Found(rules, dir, entries[..i], recursive, p))
  {
    var node := entries[i];
    if dir <= p && |dir| < |p| && rules.inside(p) {
      var rest := p[|dir|..];
      assert p == dir + rest;
      assert entries[..i + 1] == entries[..i] + [node];
      SeenLast(rules, entries[..i], node, recursive, rest);
      if node.name == rest[0] {
        AddedHere(rules, dir, node, recursive, rest);
      } else {
        assert (dir + [node.name])[|dir|] != p[|dir|];
        AddedElsewhere(rules, dir, node, recursive, p);
      }
    } else {
      AddedElsewhere(rules, dir, node, recursive, p);
    }
  }

  /** collectSweepSignatures: the map holds a path exactly when some root's walk sees it, with
      the signature of the last such root. */
  method CollectSweepSignatures(rules: Rules, roots: seq<Root>) returns (signatures: map<Path, Signature>)
    requires forall k :: 0 <= k < |roots| ==> DistinctNames(roots[k].entries)
    ensures forall p :: Get(signatures, p) == Collected(rules, roots, p)
  {
    signatures := map[];
    for k := 0 to |roots|
      invariant forall p :: Get(signatures, p) == Collected(rules, roots[..k], p)
    {
      assert roots[..k + 1][..k] == roots[..k];
      signatures := Visit(rules, roots[k].path, roots[k].entries, roots[k].recursive, signatures);
    }
    assert roots[..|roots|] == roots;
  }

  function Collected(rules: Rules, roots: seq<Root>, p: Path): Option<Signature> {
    if roots == [] then None
    else
      var last := roots[|roots| - 1];
      Over(Found(rules, last.path, last.entries, last.recursive, p), Collected(rules, roots[..|roots| - 1], p))
  }
}
