/**
  The structuredClone shim: a recursive copy of a possibly cyclic, shared object graph
  through a `seen` map that is filled before the children are. Memory is explicit, so that
  "fresh" and "unchanged" are statements about references.
 */
module StructuredClone {
  import opened Prelude

  type Ref = nat

  /** The strings that name an accessor without a setter: "size" of maps and sets, "source",
      "flags" and the like of regular expressions, and what buffers and views say of themselves. */
  datatype Getter = SizeName | RegExpName(text: string) | ByteLengthName | ByteOffsetName | BufferName | LengthName

  /** Primitives, null and undefined are tokens; so are strings, but "__proto__" is `ProtoName` and
      the getters' names are apart. Functions and symbols cannot be cloned. */
  datatype Value = Token(text: string) | GetterName(name: Getter) | ProtoName | Callable | Pointer(ref: Ref)

  datatype Kind = ArrayKind | ObjectKind | MapKind | SetKind

  /** What is cloned without being recorded in `seen`. */
  datatype Payload =
    | DateOf(time: int)
    | RegExpOf(source: string, flags: string, lastIndex: int)
    | BytesOf(access: Bytes, bytes: seq<int>)

  datatype Bytes = WholeBuffer | DataViewOn | TypedArrayOn

  /** An entry pairs a key with an item: undefined and the element in an array, the element
      and undefined in a set, the property name and its value in an object. */
  datatype Slot = Slot(key: Value, item: Value)

  datatype Cell = Container(kind: Kind, slots: seq<Slot>) | Leaf(payload: Payload)

  type Memory = map<Ref, Cell>

  // ---- well-formed memory ---------------------------------------------------------

  ghost predicate Stored(m: Memory, v: Value) {
    v.Pointer? ==> v.ref in m
  }

  ghost predicate DistinctKeys(slots: seq<Slot>) {
    forall i, j :: 0 <= i < j < |slots| ==> slots[i].key != slots[j].key
  }

  ghost predicate WellFormed(m: Memory) {
    forall r :: r in m && m[r].Container? ==>
      && (forall s :: s in m[r].slots ==> Stored(m, s.key) && Stored(m, s.item))
      && (!m[r].kind.ArrayKind? ==> DistinctKeys(m[r].slots))
      && (m[r].kind.ArrayKind? || m[r].kind.ObjectKind? ==> forall s :: s in m[r].slots ==> s.key.Token? || s.key.GetterName? || s.key.ProtoName?)
  }

  // ---- how a container takes an entry ------------------------------------------------

  predicate HasKey(slots: seq<Slot>, key: Value) {
    exists i :: 0 <= i < |slots| && slots[i].key == key
  }

  function Replaced(slots: seq<Slot>, s: Slot): seq<Slot> {
    seq(|slots|, i requires 0 <= i < |slots| => if slots[i].key == s.key then s else slots[i])
  }

  /** push, Map.set, Set.add and property assignment. Assigning "__proto__" runs the
      inherited setter and creates no property. */
  function Insert(kind: Kind, slots: seq<Slot>, s: Slot): seq<Slot> {
    match kind
    case ArrayKind => slots + [s]
    case SetKind => if HasKey(slots, s.key) then slots else slots + [s]
    case MapKind => if HasKey(slots, s.key) then Replaced(slots, s) else slots + [s]
    case ObjectKind =>
      if s.key.ProtoName? then slots
      else if HasKey(slots, s.key) then Replaced(slots, s)
      else slots + [s]
  }

  /** The entry is appended or dropped; it replaces none. */
  predicate Lands(slots: seq<Slot>, after: seq<Slot>, s: Slot) {
    after == slots || after == slots + [s]
  }

  predicate Copies(kind: Kind, s: Slot) {
    !(kind.ObjectKind? && s.key.ProtoName?)
  }

  /** The entries that arrive in the copy. */
  function Kept(kind: Kind, slots: seq<Slot>): seq<Slot> {
    if slots == [] then []
    else
      var rest, last := slots[..|slots| - 1], slots[|slots| - 1];
      if Copies(kind, last) then Kept(kind, rest) + [last] else Kept(kind, rest)
  }

  lemma {:induction false} KeptIn(kind: Kind, slots: seq<Slot>, s: Slot)
    ensures s in Kept(kind, slots) <==> s in slots && Copies(kind, s)
  {
    if slots != [] {
      var rest, last := slots[..|slots| - 1], slots[|slots| - 1];
      assert slots == rest + [last];
      KeptIn(kind, rest, s);
    }
  }

  lemma {:induction false} KeptAll(kind: Kind, slots: seq<Slot>)
    ensures |Kept(kind, slots)| <= |slots|
    ensures |Kept(kind, slots)| == |slots| <==> forall i :: 0 <= i < |slots| ==> Copies(kind, slots[i])
    ensures |Kept(kind, slots)| == |slots| ==> Kept(kind, slots) == slots
  {
    if slots != [] {
      var rest, last := slots[..|slots| - 1], slots[|slots| - 1];
      assert slots == rest + [last];
      KeptAll(kind, rest);
    }
  }

  // ---- the copy relation -----------------------------------------------------------------

  /** `w` is the copy of `v`: tokens are themselves, a container is the one recorded for it,
      anything else is a new cell with the same payload. */
  ghost predicate Image(src: Memory, cells: Memory, seen: map<Ref, Ref>, v: Value, w: Value) {
    if v.Pointer? then
      && v.ref in src && w.Pointer?
      && (if src[v.ref].Container? then v.ref in seen && w.ref == seen[v.ref]
          else w.ref !in src && w.ref in cells && cells[w.ref] == src[v.ref])
    else
      !v.Callable? && w == v
  }

  ghost predicate SlotImages(src: Memory, cells: Memory, seen: map<Ref, Ref>, ss: seq<Slot>, ts: seq<Slot>) {
    && |ss| == |ts|
    && (forall i :: 0 <= i < |ss| ==> Image(src, cells, seen, ss[i].key, ts[i].key))
    && (forall i :: 0 <= i < |ss| ==> Image(src, cells, seen, ss[i].item, ts[i].item))
  }

  /** Nothing below `v` is left to clone except through containers already recorded. */
  ghost predicate Visited(src: Memory, seen: map<Ref, Ref>, v: Value) {
    && !v.Callable?
    && (v.Pointer? && v.ref in src && src[v.ref].Container? ==> v.ref in seen)
  }

  ghost predicate AllVisited(src: Memory, seen: map<Ref, Ref>, slots: seq<Slot>) {
    forall i :: 0 <= i < |slots| ==> Visited(src, seen, slots[i].key) && Visited(src, seen, slots[i].item)
  }

  ghost predicate IsLeaf(src: Memory, v: Value) {
    v.Pointer? && v.ref in src && src[v.ref].Leaf?
  }

  /** The copy recorded for a finished container. */
  ghost predicate Filled(src: Memory, cells: Memory, seen: map<Ref, Ref>, r: Ref) {
    && r in src && src[r].Container? && r in seen && seen[r] in cells && cells[seen[r]].Container?
    && SlotImages(src, cells, seen, Kept(src[r].kind, src[r].slots), cells[seen[r]].slots)
    && AllVisited(src, seen, src[r].slots)
  }

  ghost predicate RecordedAt(src: Memory, cells: Memory, seen: map<Ref, Ref>, r: Ref)
    requires r in seen
  {
    && r in src && src[r].Container? && seen[r] !in src && seen[r] in cells
    && cells[seen[r]].Container? && cells[seen[r]].kind == src[r].kind
  }

  ghost predicate Injective(seen: map<Ref, Ref>) {
    forall r, q :: r in seen && q in seen && seen[r] == seen[q] ==> r == q
  }

  ghost predicate Unchanged(src: Memory, cells: Memory) {
    forall r :: r in src ==> r in cells && cells[r] == src[r]
  }

  /** `seen` is an injection from containers of the source to new containers of the same kind. */
  ghost predicate Recorded(src: Memory, cells: Memory, seen: map<Ref, Ref>) {
    && Unchanged(src, cells)
    && (forall r :: r in seen ==> RecordedAt(src, cells, seen, r))
    && Injective(seen)
  }

  /** The invariant of the whole copy: only the containers in `grey` are still being filled. */
  ghost predicate Copying(src: Memory, cells: Memory, seen: map<Ref, Ref>, grey: set<Ref>) {
    && Recorded(src, cells, seen)
    && (forall r :: r in seen && r !in grey ==> Filled(src, cells, seen, r))
  }

  // ---- growing ---------------------------------------------------------------------------

  /** Memory and `seen` only grow. */
  ghost predicate Grows(cells: Memory, seen: map<Ref, Ref>, cells': Memory, seen': map<Ref, Ref>) {
    && (forall r :: r in cells ==> r in cells' && cells'[r] == cells[r])
    && (forall r :: r in seen ==> r in seen' && seen'[r] == seen[r])
  }

  /** The weaker growth under which images stay images: a container may be refilled. */
  ghost predicate LeavesStay(cells: Memory, seen: map<Ref, Ref>, cells': Memory, seen': map<Ref, Ref>) {
    && (forall r :: r in cells && cells[r].Leaf? ==> r in cells' && cells'[r] == cells[r])
    && (forall r :: r in seen ==> r in seen' && seen'[r] == seen[r])
  }

  lemma ImagesStay(src: Memory, cells: Memory, seen: map<Ref, Ref>, cells': Memory, seen': map<Ref, Ref>,
                   ss: seq<Slot>, ts: seq<Slot>)
    requires SlotImages(src, cells, seen, ss, ts) && LeavesStay(cells, seen, cells', seen')
    ensures SlotImages(src, cells', seen', ss, ts)
  {
  }

  lemma VisitedStay(src: Memory, seen: map<Ref, Ref>, seen': map<Ref, Ref>, slots: seq<Slot>)
    requires AllVisited(src, seen, slots) && forall r :: r in seen ==> r in seen'
    ensures AllVisited(src, seen', slots)
  {
  }

  lemma FilledStays(src: Memory, cells: Memory, seen: map<Ref, Ref>, cells': Memory, seen': map<Ref, Ref>, r: Ref)
    requires Filled(src, cells, seen, r) && LeavesStay(cells, seen, cells', seen')
    requires seen[r] in cells' && cells'[seen[r]] == cells[seen[r]]
    ensures Filled(src, cells', seen', r)
  {
    ImagesStay(src, cells, seen, cells', seen', Kept(src[r].kind, src[r].slots), cells[seen[r]].slots);
    VisitedStay(src, seen, seen', src[r].slots);
  }

  lemma AllocatingKeeps(src: Memory, cells: Memory, seen: map<Ref, Ref>, grey: set<Ref>, copy: Ref, cell: Cell)
    requires Copying(src, cells, seen, grey) && copy !in cells
    ensures Copying(src, cells[copy := cell], seen, grey)
    ensures Grows(cells, seen, cells[copy := cell], seen)
  {
    var cells' := cells[copy := cell];
    forall r | r in seen && r !in grey ensures Filled(src, cells', seen, r) {
      assert RecordedAt(src, cells, seen, r);
      FilledStays(src, cells, seen, cells', seen, r);
    }
    forall r | r in seen ensures RecordedAt(src, cells', seen, r) {
      assert RecordedAt(src, cells, seen, r);
    }
  }

  lemma RecordingKeeps(src: Memory, cells: Memory, seen: map<Ref, Ref>, grey: set<Ref>, r: Ref, copy: Ref)
    requires Copying(src, cells, seen, grey) && r in src && src[r].Container? && r !in seen
    requires copy in cells && copy !in src && cells[copy] == Container(src[r].kind, [])
    requires forall q :: q in seen ==> seen[q] != copy
    ensures Copying(src, cells, seen[r := copy], grey + {r})
  {
    var seen' := seen[r := copy];
    forall q | q in seen' && q !in grey + {r} ensures Filled(src, cells, seen', q) {
      FilledStays(src, cells, seen, cells, seen', q);
    }
    forall q | q in seen' ensures RecordedAt(src, cells, seen', q) {
      assert q != r ==> RecordedAt(src, cells, seen, q);
    }
  }

  lemma FillingKeeps(src: Memory, cells: Memory, seen: map<Ref, Ref>, grey: set<Ref>, r: Ref, slots: seq<Slot>)
    requires Copying(src, cells, seen, grey) && r in seen && r in grey && r in src && src[r].Container?
    ensures Copying(src, cells[seen[r] := Container(src[r].kind, slots)], seen, grey)
    ensures LeavesStay(cells, seen, cells[seen[r] := Container(src[r].kind, slots)], seen)
  {
    var cells' := cells[seen[r] := Container(src[r].kind, slots)];
    assert RecordedAt(src, cells, seen, r);
    forall q | q in seen && q !in grey ensures Filled(src, cells', seen, q) {
      assert RecordedAt(src, cells, seen, q);
      FilledStays(src, cells, seen, cells', seen, q);
    }
    forall q | q in seen ensures RecordedAt(src, cells', seen, q) {
      assert RecordedAt(src, cells, seen, q);
    }
  }

  // ---- one entry ---------------------------------------------------------------------------

  ghost predicate KeysStored(cells: Memory, slots: seq<Slot>) {
    forall i :: 0 <= i < |slots| && slots[i].key.Pointer? ==> slots[i].key.ref in cells
  }

  lemma ImageStored(src: Memory, cells: Memory, seen: map<Ref, Ref>, v: Value, w: Value)
    requires Image(src, cells, seen, v, w) && Recorded(src, cells, seen)
    ensures w.Pointer? ==> w.ref in cells
  {
    if v.Pointer? && v.ref in seen {
      assert RecordedAt(src, cells, seen, v.ref);
    }
  }

  lemma ImagesStored(src: Memory, cells: Memory, seen: map<Ref, Ref>, ss: seq<Slot>, ts: seq<Slot>)
    requires SlotImages(src, cells, seen, ss, ts) && Recorded(src, cells, seen)
    ensures KeysStored(cells, ts)
  {
    forall i | 0 <= i < |ts| ensures ts[i].key.Pointer? ==> ts[i].key.ref in cells {
      ImageStored(src, cells, seen, ss[i].key, ts[i].key);
    }
  }

  /** Different keys have different copies: containers because `seen` is injective, the rest
      because their copies are new. */
  lemma KeyCopiesDiffer(src: Memory, before: Memory, cells: Memory, seen: map<Ref, Ref>,
                        v: Value, w: Value, v': Value, w': Value)
    requires Recorded(src, cells, seen)
    requires Image(src, cells, seen, v, w) && Image(src, cells, seen, v', w') && v != v'
    requires w.Pointer? ==> w.ref in before
    requires v'.Pointer? && v'.ref in src && src[v'.ref].Leaf? ==> w'.Pointer? && w'.ref !in before
    ensures w != w'
  {
    if v.Pointer? && v'.Pointer? && src[v'.ref].Container? {
      assert RecordedAt(src, cells, seen, v'.ref);
      if src[v.ref].Container? {
        assert RecordedAt(src, cells, seen, v.ref);
      }
    }
  }

  lemma KeyIsNew(src: Memory, before: Memory, cells: Memory, seen: map<Ref, Ref>,
                 ss: seq<Slot>, ts: seq<Slot>, v: Value, w: Value)
    requires Recorded(src, cells, seen) && SlotImages(src, cells, seen, ss, ts) && KeysStored(before, ts)
    requires Image(src, cells, seen, v, w) && forall s :: s in ss ==> s.key != v
    requires v.Pointer? && v.ref in src && src[v.ref].Leaf? ==> w.Pointer? && w.ref !in before
    ensures !HasKey(ts, w)
  {
    forall i | 0 <= i < |ts| ensures ts[i].key != w {
      assert ss[i] in ss;
      KeyCopiesDiffer(src, before, cells, seen, ss[i].key, ts[i].key, v, w);
    }
  }

  lemma KeptStep(kind: Kind, slots: seq<Slot>, i: nat)
    requires i < |slots|
    ensures Kept(kind, slots[..i + 1]) == if Copies(kind, slots[i]) then Kept(kind, slots[..i]) + [slots[i]] else Kept(kind, slots[..i])
  {
    assert slots[..i + 1][..i] == slots[..i];
  }

  /** A key not seen before has a copy not stored before. */
  lemma KeyLandsOnce(src: Memory, before: Memory, cells: Memory, seen: map<Ref, Ref>, kind: Kind,
                     slots: seq<Slot>, i: nat, ts: seq<Slot>, key: Value)
    requires i < |slots| && Recorded(src, cells, seen) && DistinctKeys(slots)
    requires SlotImages(src, cells, seen, Kept(kind, slots[..i]), ts) && KeysStored(before, ts)
    requires Image(src, cells, seen, slots[i].key, key)
    requires slots[i].key.Pointer? && src[slots[i].key.ref].Leaf? ==> key.Pointer? && key.ref !in before
    ensures !HasKey(ts, key)
  {
    forall s | s in Kept(kind, slots[..i]) ensures s.key != slots[i].key {
      KeptIn(kind, slots[..i], s);
      var j :| 0 <= j < i && slots[..i][j] == s;
    }
    KeyIsNew(src, before, cells, seen, Kept(kind, slots[..i]), ts, slots[i].key, key);
  }

  lemma InsertNew(kind: Kind, ts: seq<Slot>, t: Slot)
    requires kind.ArrayKind? || !HasKey(ts, t.key)
    ensures Insert(kind, ts, t) == if Copies(kind, t) then ts + [t] else ts
  {
  }

  lemma ImagesExtend(src: Memory, cells: Memory, seen: map<Ref, Ref>, ss: seq<Slot>, ts: seq<Slot>, s: Slot, t: Slot)
    requires SlotImages(src, cells, seen, ss, ts)
    requires Image(src, cells, seen, s.key, t.key) && Image(src, cells, seen, s.item, t.item)
    ensures SlotImages(src, cells, seen, ss + [s], ts + [t])
  {
  }

  /** An entry that is kept lands at the end; no entry replaces another. */
  lemma InsertAppends(src: Memory, before: Memory, cells: Memory, seen: map<Ref, Ref>, kind: Kind,
                      slots: seq<Slot>, i: nat, ts: seq<Slot>, t: Slot)
    requires i < |slots| && Recorded(src, cells, seen) && (!kind.ArrayKind? ==> DistinctKeys(slots))
    requires SlotImages(src, cells, seen, Kept(kind, slots[..i]), ts) && KeysStored(before, ts)
    requires Image(src, cells, seen, slots[i].key, t.key) && Image(src, cells, seen, slots[i].item, t.item)
    requires slots[i].key.Pointer? && src[slots[i].key.ref].Leaf? ==> t.key.Pointer? && t.key.ref !in before
    ensures SlotImages(src, cells, seen, Kept(kind, slots[..i + 1]), Insert(kind, ts, t))
    ensures Copies(kind, slots[i]) == Copies(kind, t) && Insert(kind, ts, t) == if Copies(kind, t) then ts + [t] else ts
  {
    KeptStep(kind, slots, i);
    if !kind.ArrayKind? {
      KeyLandsOnce(src, before, cells, seen, kind, slots, i, ts, t.key);
    }
    InsertNew(kind, ts, t);
    if Copies(kind, slots[i]) {
      ImagesExtend(src, cells, seen, Kept(kind, slots[..i]), ts, slots[i], t);
    }
  }

  // ---- reachability in the source ---------------------------------------------------------

  ghost predicate Holds(src: Memory, r: Ref, v: Value) {
    r in src && src[r].Container? && exists s :: s in src[r].slots && (s.key == v || s.item == v)
  }

  /** `path` lists the containers passed on the way from `v` down to `w`. */
  ghost predicate Path(src: Memory, v: Value, path: seq<Ref>, w: Value)
    decreases |path|
  {
    if path == [] then v == w
    else v == Pointer(path[0]) && exists u :: Holds(src, path[0], u) && Path(src, u, path[1..], w)
  }

  ghost predicate Reaches(src: Memory, v: Value, w: Value) {
    exists path :: Path(src, v, path, w)
  }

  ghost predicate Reachable(src: Memory, v: Value, r: Ref) {
    r in src && src[r].Container? && Reaches(src, v, Pointer(r))
  }

  lemma ReachesSelf(src: Memory, v: Value)
    ensures Reaches(src, v, v)
  {
    assert Path(src, v, [], v);
  }

  lemma ReachesThrough(src: Memory, p: Ref, v: Value, w: Value)
    requires Holds(src, p, v) && Reaches(src, v, w)
    ensures Reaches(src, Pointer(p), w)
  {
    var path :| Path(src, v, path, w);
    var longer := [p] + path;
    assert longer[1..] == path;
    assert Path(src, Pointer(p), longer, w);
  }

  /** Everything `seen'` records beyond `seen` lies below `v`. */
  ghost predicate OnlyBelow(src: Memory, v: Value, seen: map<Ref, Ref>, seen': map<Ref, Ref>) {
    forall r :: r in seen' && r !in seen ==> Reachable(src, v, r)
  }

  lemma BelowAccumulates(src: Memory, p: Ref, v: Value, seen: map<Ref, Ref>, seen': map<Ref, Ref>, seen'': map<Ref, Ref>)
    requires OnlyBelow(src, Pointer(p), seen, seen') && OnlyBelow(src, v, seen', seen'') && Holds(src, p, v)
    ensures OnlyBelow(src, Pointer(p), seen, seen'')
  {
    forall r | r in seen'' && r !in seen ensures Reachable(src, Pointer(p), r) {
      if r !in seen' {
        ReachesThrough(src, p, v, Pointer(r));
      }
    }
  }

  // ---- where a copied leaf lives -----------------------------------------------------------

  datatype Access = KeyOf(index: nat) | ItemOf(index: nat)

  /** The root, or one key or item of the copy of the container `holder`. */
  datatype Place = Root | At(holder: Ref, access: Access)

  /** `home` gives each copied leaf the one place that holds it. */
  ghost predicate AtHome(cells: Memory, home: map<Ref, Place>, place: Place, w: Value) {
    w.Pointer? ==> w.ref in cells && (cells[w.ref].Leaf? ==> w.ref in home && home[w.ref] == place)
  }

  ghost predicate SlotsAtHome(cells: Memory, home: map<Ref, Place>, r: Ref, slots: seq<Slot>) {
    && (forall i :: 0 <= i < |slots| ==> AtHome(cells, home, At(r, KeyOf(i)), slots[i].key))
    && (forall i :: 0 <= i < |slots| ==> AtHome(cells, home, At(r, ItemOf(i)), slots[i].item))
  }

  ghost predicate CopyAtHome(cells: Memory, seen: map<Ref, Ref>, home: map<Ref, Place>, r: Ref)
    requires r in seen
  {
    && seen[r] in cells && cells[seen[r]].Container? && SlotsAtHome(cells, home, r, cells[seen[r]].slots)
  }

  /** Finished or not, every recorded copy holds its leaves at home. */
  ghost predicate Homed(cells: Memory, seen: map<Ref, Ref>, home: map<Ref, Place>) {
    && (forall c :: c in home ==> c in cells)
    && (forall r :: r in seen ==> CopyAtHome(cells, seen, home, r))
  }

  ghost predicate HomesStay(cells: Memory, home: map<Ref, Place>, cells': Memory, home': map<Ref, Place>) {
    && (forall r :: r in cells ==> r in cells' && cells'[r].Leaf? == cells[r].Leaf?)
    && (forall c :: c in home ==> c in home' && home'[c] == home[c])
  }

  lemma AtHomeStays(cells: Memory, home: map<Ref, Place>, cells': Memory, home': map<Ref, Place>, place: Place, w: Value)
    requires AtHome(cells, home, place, w) && HomesStay(cells, home, cells', home')
    ensures AtHome(cells', home', place, w)
  {
  }

  lemma SlotsStayAtHome(cells: Memory, home: map<Ref, Place>, cells': Memory, home': map<Ref, Place>, r: Ref, slots: seq<Slot>)
    requires SlotsAtHome(cells, home, r, slots) && HomesStay(cells, home, cells', home')
    ensures SlotsAtHome(cells', home', r, slots)
  {
  }

  lemma LeafHomed(cells: Memory, seen: map<Ref, Ref>, home: map<Ref, Place>, copy: Ref, leaf: Cell, place: Place)
    requires Homed(cells, seen, home) && copy !in cells && leaf.Leaf?
    ensures Homed(cells[copy := leaf], seen, home[copy := place])
    ensures HomesStay(cells, home, cells[copy := leaf], home[copy := place])
  {
    forall r | r in seen ensures CopyAtHome(cells[copy := leaf], seen, home[copy := place], r) {
      assert CopyAtHome(cells, seen, home, r);
      SlotsStayAtHome(cells, home, cells[copy := leaf], home[copy := place], r, cells[seen[r]].slots);
    }
  }

  lemma ContainerHomed(cells: Memory, seen: map<Ref, Ref>, home: map<Ref, Place>, source: Ref, copy: Ref, kind: Kind)
    requires Homed(cells, seen, home) && copy !in cells && source !in seen
    ensures Homed(cells[copy := Container(kind, [])], seen[source := copy], home)
    ensures HomesStay(cells, home, cells[copy := Container(kind, [])], home)
  {
    var cells', seen' := cells[copy := Container(kind, [])], seen[source := copy];
    assert HomesStay(cells, home, cells', home);
    forall r | r in seen' ensures CopyAtHome(cells', seen', home, r) {
      if r != source {
        assert CopyAtHome(cells, seen, home, r);
        SlotsStayAtHome(cells, home, cells', home, r, cells[seen[r]].slots);
      }
    }
  }

  lemma EntryHomed(cells: Memory, seen: map<Ref, Ref>, home: map<Ref, Place>, source: Ref, after: seq<Slot>, s: Slot)
    requires Homed(cells, seen, home) && Injective(seen) && source in seen && CopyAtHome(cells, seen, home, source)
    requires Lands(cells[seen[source]].slots, after, s)
    requires AtHome(cells, home, At(source, KeyOf(|cells[seen[source]].slots|)), s.key)
    requires AtHome(cells, home, At(source, ItemOf(|cells[seen[source]].slots|)), s.item)
    ensures Homed(cells[seen[source] := Container(cells[seen[source]].kind, after)], seen, home)
    ensures HomesStay(cells, home, cells[seen[source] := Container(cells[seen[source]].kind, after)], home)
  {
    var cells' := cells[seen[source] := Container(cells[seen[source]].kind, after)];
    assert HomesStay(cells, home, cells', home);
    assert SlotsAtHome(cells, home, source, after);
    SlotsStayAtHome(cells, home, cells', home, source, after);
    forall r | r in seen ensures CopyAtHome(cells', seen, home, r) {
      if r != source {
        assert CopyAtHome(cells, seen, home, r);
        SlotsStayAtHome(cells, home, cells', home, r, cells[seen[r]].slots);
      }
    }
  }

  // ---- what "__proto__" does to the entries behind it --------------------------------------

  /** The object answers the name through an accessor without a setter, so an object that
      inherits from it cannot be assigned a property of that name. */
  predicate GetterOnly(c: Cell, name: Getter) {
    match c
    case Container(kind, _) => (kind.MapKind? || kind.SetKind?) && name.SizeName?
    case Leaf(RegExpOf(_, _, _)) => name.RegExpName?
    case Leaf(BytesOf(access, _)) =>
      name.ByteLengthName? || (!access.WholeBuffer? && (name.ByteOffsetName? || name.BufferName?))
      || (access.TypedArrayOn? && name.LengthName?)
    case Leaf(DateOf(_)) => false
  }

  predicate IsObject(m: Memory, r: Ref) {
    r in m && m[r].Container? && m[r].kind.ObjectKind?
  }

  /** `protos` are the prototypes that were replaced. The setter refuses a cycle ... */
  predicate LeadsTo(protos: map<Ref, Ref>, p: Ref, target: Ref, passed: set<Ref>)
    decreases protos.Keys - passed
  {
    p == target || (p in protos && p !in passed && LeadsTo(protos, protos[p], target, passed + {p}))
  }

  /** ... and an assignment fails when the first object up the chain that knows the name has only
      a getter for it. */
  predicate Refuses(cells: Memory, protos: map<Ref, Ref>, p: Ref, name: Getter, passed: set<Ref>)
    decreases protos.Keys - passed
  {
    p in cells &&
    if !IsObject(cells, p) then GetterOnly(cells[p], name)
    else
      && !HasKey(cells[p].slots, GetterName(name))
      && p in protos && p !in passed && Refuses(cells, protos, protos[p], name, passed + {p})
  }

  /** `clone[key] = item` throws. */
  predicate Throws(cells: Memory, protos: map<Ref, Ref>, copy: Ref, s: Slot) {
    && IsObject(cells, copy)
    && (s.key.ProtoName? && s.item.Pointer? ==> LeadsTo(protos, s.item.ref, copy, {}))
    && (!(s.key.ProtoName? && s.item.Pointer?) ==>
          s.key.GetterName? && copy in protos && Refuses(cells, protos, protos[copy], s.key.name, {copy}))
  }

  function ProtosAfter(cells: Memory, protos: map<Ref, Ref>, copy: Ref, s: Slot): map<Ref, Ref> {
    if IsObject(cells, copy) && s.key.ProtoName? && s.item.Pointer? then protos[copy := s.item.ref] else protos
  }

  /** Entry `i` is an own "__proto__" that holds an object. */
  predicate ProtoAt(slots: seq<Slot>, i: int) {
    0 <= i < |slots| && slots[i].key.ProtoName? && slots[i].item.Pointer?
  }

  /** Behind it comes a name that object has only a getter for. */
  predicate BlockedAt(src: Memory, slots: seq<Slot>, i: int, j: int) {
    ProtoAt(slots, i) && i < j < |slots| && NamesGetterOf(src, slots[j].key, slots[i].item)
  }

  ghost predicate BlockedIn(src: Memory, kind: Kind, slots: seq<Slot>) {
    kind.ObjectKind? && exists i, j :: BlockedAt(src, slots, i, j)
  }

  predicate NamesGetterOf(src: Memory, key: Value, v: Value) {
    v.Pointer? && v.ref in src && key.GetterName? && GetterOnly(src[v.ref], key.name)
  }

  /** The object in an own "__proto__" is itself one that owns such a "__proto__". */
  ghost predicate Deep(src: Memory, r: Ref) {
    IsObject(src, r) && exists i :: ProtoAt(src[r].slots, i) && OwnsObjectProto(src, src[r].slots[i].item.ref)
  }

  ghost predicate OwnsObjectProto(src: Memory, r: Ref) {
    IsObject(src, r) && exists i :: ProtoAt(src[r].slots, i)
  }

  ghost predicate Blocked(src: Memory, r: Ref) {
    r in src && src[r].Container? && BlockedIn(src, src[r].kind, src[r].slots)
  }

  /** What can make the copy fail. */
  ghost predicate Bad(src: Memory, v: Value) {
    v.Callable? || (v.Pointer? && (Blocked(src, v.ref) || Deep(src, v.ref)))
  }

  ghost predicate Fails(src: Memory, v: Value) {
    exists w :: Bad(src, w) && Reaches(src, v, w)
  }

  lemma FailsThrough(src: Memory, p: Ref, v: Value)
    requires Holds(src, p, v) && Fails(src, v)
    ensures Fails(src, Pointer(p))
  {
    var w :| Bad(src, w) && Reaches(src, v, w);
    ReachesThrough(src, p, v, w);
  }

  lemma FailsHere(src: Memory, v: Value)
    requires Bad(src, v)
    ensures Fails(src, v)
  {
    ReachesSelf(src, v);
  }

  /** A replaced prototype is the copy of what the own "__proto__" holds. */
  ghost predicate ProtoFrom(src: Memory, cells: Memory, seen: map<Ref, Ref>, r: Ref, w: Ref) {
    IsObject(src, r) && exists i :: ProtoAt(src[r].slots, i) && Image(src, cells, seen, src[r].slots[i].item, Pointer(w))
  }

  /** ... held by an entry before `i`. */
  ghost predicate ProtoBefore(src: Memory, cells: Memory, seen: map<Ref, Ref>, r: Ref, i: nat, w: Ref) {
    IsObject(src, r) && exists k :: 0 <= k < i && ProtoAt(src[r].slots, k) && Image(src, cells, seen, src[r].slots[k].item, Pointer(w))
  }

  /** The invariant of prototypes; a finished container was not blocked. */
  ghost predicate Linked(src: Memory, cells: Memory, seen: map<Ref, Ref>, protos: map<Ref, Ref>, grey: set<Ref>) {
    && (forall c :: c in protos ==> c in cells && cells[c].Container?)
    && (forall r :: r in seen && seen[r] in protos ==> ProtoFrom(src, cells, seen, r, protos[seen[r]]))
    && (forall r :: r in seen && r !in grey ==> !Blocked(src, r))
  }

  /** The first `i` entries of `source` were assigned without an error. */
  ghost predicate Assigned(src: Memory, cells: Memory, seen: map<Ref, Ref>, protos: map<Ref, Ref>, source: Ref, i: nat) {
    && source in src && src[source].Container? && i <= |src[source].slots| && source in seen
    && !BlockedIn(src, src[source].kind, src[source].slots[..i])
    && (src[source].kind.ObjectKind? ==> forall k :: 0 <= k < i && ProtoAt(src[source].slots, k) ==>
          seen[source] in protos && Image(src, cells, seen, src[source].slots[k].item, Pointer(protos[seen[source]])))
    && (seen[source] in protos ==> ProtoBefore(src, cells, seen, source, i, protos[seen[source]]))
  }

  /** Only new objects get another prototype. */
  ghost predicate ProtosStay(cells: Memory, protos: map<Ref, Ref>, protos': map<Ref, Ref>) {
    && (forall c :: c in protos ==> c in protos' && protos'[c] == protos[c])
    && (forall c :: c in protos' && c !in protos ==> c !in cells)
  }

  lemma LinkedStays(src: Memory, cells: Memory, seen: map<Ref, Ref>, protos: map<Ref, Ref>, grey: set<Ref>, cells': Memory)
    requires Linked(src, cells, seen, protos, grey) && LeavesStay(cells, seen, cells', seen)
    requires forall c :: c in cells && cells[c].Container? ==> c in cells' && cells'[c].Container?
    ensures Linked(src, cells', seen, protos, grey)
  {
    forall r | r in seen && seen[r] in protos ensures ProtoFrom(src, cells', seen, r, protos[seen[r]]) {
      assert ProtoFrom(src, cells, seen, r, protos[seen[r]]);
    }
  }

  lemma LinkedBegins(src: Memory, cells: Memory, seen: map<Ref, Ref>, protos: map<Ref, Ref>, grey: set<Ref>,
                     source: Ref, copy: Ref, cell: Cell)
    requires Linked(src, cells, seen, protos, grey) && copy !in cells && source !in seen
    requires source in src && src[source].Container?
    ensures Linked(src, cells[copy := cell], seen[source := copy], protos, grey + {source})
    ensures Assigned(src, cells[copy := cell], seen[source := copy], protos, source, 0)
  {
    var cells', seen' := cells[copy := cell], seen[source := copy];
    assert src[source].slots[..0] == [];
    forall r | r in seen' && seen'[r] in protos ensures ProtoFrom(src, cells', seen', r, protos[seen'[r]]) {
      assert ProtoFrom(src, cells, seen, r, protos[seen[r]]);
    }
  }

  lemma LinkedEnds(src: Memory, cells: Memory, seen: map<Ref, Ref>, protos: map<Ref, Ref>, grey: set<Ref>, source: Ref)
    requires source in src && src[source].Container? && source in seen
    requires Linked(src, cells, seen, protos, grey + {source}) && Assigned(src, cells, seen, protos, source, |src[source].slots|)
    ensures Linked(src, cells, seen, protos, grey)
  {
    assert src[source].slots[..|src[source].slots|] == src[source].slots;
  }

  lemma AssignedStays(src: Memory, cells: Memory, seen: map<Ref, Ref>, protos: map<Ref, Ref>,
                      cells': Memory, seen': map<Ref, Ref>, protos': map<Ref, Ref>, source: Ref, i: nat)
    requires Assigned(src, cells, seen, protos, source, i)
    requires LeavesStay(cells, seen, cells', seen') && ProtosStay(cells, protos, protos') && seen[source] in cells
    ensures Assigned(src, cells', seen', protos', source, i)
  {
    if seen[source] in protos {
      assert ProtoBefore(src, cells, seen, source, i, protos[seen[source]]);
    }
  }

  lemma BlockedLater(src: Memory, kind: Kind, slots: seq<Slot>, i: nat)
    requires i < |slots| && !BlockedIn(src, kind, slots[..i])
    requires kind.ObjectKind? ==> forall k :: 0 <= k < i && ProtoAt(slots, k) ==> !NamesGetterOf(src, slots[i].key, slots[k].item)
    ensures !BlockedIn(src, kind, slots[..i + 1])
  {
    if kind.ObjectKind? {
      var upto := slots[..i + 1];
      forall k, j ensures !BlockedAt(src, upto, k, j) {
        assert !BlockedAt(src, slots[..i], k, j);
      }
    }
  }

  /** An assignment that succeeds leaves no name behind that is blocked so far. */
  lemma NotBlockedYet(src: Memory, cells: Memory, seen: map<Ref, Ref>, protos: map<Ref, Ref>, source: Ref, i: nat, s: Slot)
    requires Recorded(src, cells, seen) && Assigned(src, cells, seen, protos, source, i) && i < |src[source].slots|
    requires Image(src, cells, seen, src[source].slots[i].key, s.key)
    requires !Throws(cells, protos, seen[source], s)
    ensures !BlockedIn(src, src[source].kind, src[source].slots[..i + 1])
  {
    var slots := src[source].slots;
    assert RecordedAt(src, cells, seen, source);
    if src[source].kind.ObjectKind? {
      forall k | 0 <= k < i && ProtoAt(slots, k) ensures !NamesGetterOf(src, slots[i].key, slots[k].item) {
        var x := slots[k].item.ref;
        if x in seen {
          assert RecordedAt(src, cells, seen, x);
        }
        if slots[i].key.GetterName? {
          assert !Refuses(cells, protos, protos[seen[source]], slots[i].key.name, {seen[source]});
        }
      }
    }
    BlockedLater(src, src[source].kind, slots, i);
  }

  lemma EntryAssigned(src: Memory, cells: Memory, seen: map<Ref, Ref>, protos: map<Ref, Ref>, grey: set<Ref>,
                      source: Ref, copy: Ref, i: nat, s: Slot, slots': seq<Slot>)
    requires WellFormed(src) && Recorded(src, cells, seen) && Linked(src, cells, seen, protos, grey) && source in grey
    requires Assigned(src, cells, seen, protos, source, i) && i < |src[source].slots|
    requires copy == seen[source] && copy in cells && cells[copy].Container?
    requires Image(src, cells, seen, src[source].slots[i].key, s.key) && Image(src, cells, seen, src[source].slots[i].item, s.item)
    requires !Throws(cells, protos, copy, s)
    ensures Linked(src, cells[copy := Container(cells[copy].kind, slots')], seen, ProtosAfter(cells, protos, copy, s), grey)
    ensures Assigned(src, cells[copy := Container(cells[copy].kind, slots')], seen, ProtosAfter(cells, protos, copy, s), source, i + 1)
  {
    var protos', cells' := ProtosAfter(cells, protos, copy, s), cells[copy := Container(cells[copy].kind, slots')];
    NotBlockedYet(src, cells, seen, protos, source, i, s);
    assert RecordedAt(src, cells, seen, source);
    assert protos' != protos ==> ProtoAt(src[source].slots, i);
    forall r | r in seen && seen[r] in protos' ensures ProtoFrom(src, cells', seen, r, protos'[seen[r]]) {
      if protos' != protos && r == source {
        assert Image(src, cells', seen, src[source].slots[i].item, Pointer(protos'[copy]));
      } else {
        assert ProtoFrom(src, cells, seen, r, protos[seen[r]]);
      }
    }
    forall k | 0 <= k < i + 1 && IsObject(src, source) && ProtoAt(src[source].slots, k)
      ensures copy in protos' && Image(src, cells', seen, src[source].slots[k].item, Pointer(protos'[copy]))
    {
      if k < i {
        assert src[source].slots[k].key != src[source].slots[i].key;
      }
    }
    if copy in protos' {
      if protos' != protos {
        assert Image(src, cells', seen, src[source].slots[i].item, Pointer(protos'[copy]));
      } else {
        assert ProtoBefore(src, cells, seen, source, i, protos[copy]);
      }
      assert ProtoBefore(src, cells', seen, source, i + 1, protos'[copy]);
    }
  }

  /** An assignment that fails was blocked from the start, or goes up a longer chain. */
  lemma ThrowIsBad(src: Memory, cells: Memory, seen: map<Ref, Ref>, protos: map<Ref, Ref>, grey: set<Ref>, source: Ref, i: nat, s: Slot)
    requires Recorded(src, cells, seen) && Linked(src, cells, seen, protos, grey)
    requires source in seen && source in src && src[source].Container? && i < |src[source].slots|
    requires Image(src, cells, seen, src[source].slots[i].key, s.key) && Image(src, cells, seen, src[source].slots[i].item, s.item)
    requires !(seen[source] in protos) || ProtoBefore(src, cells, seen, source, i, protos[seen[source]])
    requires Throws(cells, protos, seen[source], s)
    ensures Blocked(src, source) || Deep(src, source)
  {
    var slots := src[source].slots;
    assert RecordedAt(src, cells, seen, source);
    if s.key.ProtoName? && s.item.Pointer? {
      assert ProtoAt(slots, i);
      LongChain(src, cells, seen, protos, grey, source, i, s.item.ref);
    } else {
      var k :| 0 <= k < i && ProtoAt(slots, k) && Image(src, cells, seen, slots[k].item, Pointer(protos[seen[source]]));
      RefusalIsBad(src, cells, seen, protos, grey, source, k, i, s.key.name);
    }
  }

  lemma LongChain(src: Memory, cells: Memory, seen: map<Ref, Ref>, protos: map<Ref, Ref>, grey: set<Ref>, source: Ref, i: nat, p: Ref)
    requires Recorded(src, cells, seen) && Linked(src, cells, seen, protos, grey) && source in seen && IsObject(src, source)
    requires ProtoAt(src[source].slots, i) && Image(src, cells, seen, src[source].slots[i].item, Pointer(p))
    requires p == seen[source] || p in protos
    ensures Deep(src, source)
  {
    var x := src[source].slots[i].item.ref;
    assert RecordedAt(src, cells, seen, source);
    assert src[x].Container? && p == seen[x];
    if p == seen[source] {
      assert OwnsObjectProto(src, source);
    } else {
      assert ProtoFrom(src, cells, seen, x, protos[p]);
      assert OwnsObjectProto(src, x);
    }
  }

  lemma RefusalIsBad(src: Memory, cells: Memory, seen: map<Ref, Ref>, protos: map<Ref, Ref>, grey: set<Ref>,
                     source: Ref, k: nat, i: nat, name: Getter)
    requires Recorded(src, cells, seen) && Linked(src, cells, seen, protos, grey) && source in seen && IsObject(src, source)
    requires ProtoAt(src[source].slots, k) && k < i < |src[source].slots| && src[source].slots[i].key == GetterName(name)
    requires seen[source] in protos && Image(src, cells, seen, src[source].slots[k].item, Pointer(protos[seen[source]]))
    requires Refuses(cells, protos, protos[seen[source]], name, {seen[source]})
    ensures Blocked(src, source) || Deep(src, source)
  {
    var x, p := src[source].slots[k].item.ref, protos[seen[source]];
    if src[x].Container? {
      assert RecordedAt(src, cells, seen, x);
    }
    if IsObject(cells, p) {
      LongChain(src, cells, seen, protos, grey, source, k, p);
    } else {
      assert BlockedAt(src, src[source].slots, k, i);
    }
  }

  // ---- the copy ------------------------------------------------------------------------------

  datatype Result = Cloned(value: Value) | NotCloneable

  ghost predicate Progress(src: Memory, cells: Memory, seen: map<Ref, Ref>, grey: set<Ref>,
                           cells0: Memory, seen0: map<Ref, Ref>, v: Value) {
    Copying(src, cells, seen, grey) && Grows(cells0, seen0, cells, seen) && OnlyBelow(src, v, seen0, seen)
  }

  /** `copy` holds the copies of the first `i` entries of `source`. */
  ghost predicate Filling(src: Memory, cells: Memory, seen: map<Ref, Ref>, grey: set<Ref>,
                          cells0: Memory, seen0: map<Ref, Ref>, source: Ref, copy: Ref, i: nat) {
    && Progress(src, cells, seen, grey + {source}, cells0, seen0, Pointer(source))
    && source in src && src[source].Container? && i <= |src[source].slots|
    && source in seen && seen[source] == copy && copy in cells
    && cells[copy].Container? && cells[copy].kind == src[source].kind
    && SlotImages(src, cells, seen, Kept(src[source].kind, src[source].slots[..i]), cells[copy].slots)
    && AllVisited(src, seen, src[source].slots[..i])
  }

  lemma FillingDone(src: Memory, cells: Memory, seen: map<Ref, Ref>, grey: set<Ref>,
                    cells0: Memory, seen0: map<Ref, Ref>, source: Ref, copy: Ref)
    requires source in src && src[source].Container?
    requires Filling(src, cells, seen, grey, cells0, seen0, source, copy, |src[source].slots|)
    ensures Progress(src, cells, seen, grey, cells0, seen0, Pointer(source))
  {
    assert src[source].slots[..|src[source].slots|] == src[source].slots;
    assert Filled(src, cells, seen, source);
  }

  lemma EntryLands(src: Memory, cells1: Memory, seen1: map<Ref, Ref>, cells2: Memory, seen2: map<Ref, Ref>,
                   cells: Memory, seen: map<Ref, Ref>, source: Ref, i: nat, ts: seq<Slot>, key: Value, item: Value)
    requires WellFormed(src) && source in src && src[source].Container? && i < |src[source].slots|
    requires SlotImages(src, cells1, seen1, Kept(src[source].kind, src[source].slots[..i]), ts) && KeysStored(cells1, ts)
    requires Grows(cells1, seen1, cells2, seen2) && Grows(cells2, seen2, cells, seen) && Recorded(src, cells, seen)
    requires Image(src, cells2, seen2, src[source].slots[i].key, key)
    requires src[source].slots[i].key.Pointer? && src[src[source].slots[i].key.ref].Leaf? ==> key.Pointer? && key.ref !in cells1
    requires Image(src, cells, seen, src[source].slots[i].item, item)
    ensures SlotImages(src, cells, seen, Kept(src[source].kind, src[source].slots[..i + 1]),
                       Insert(src[source].kind, ts, Slot(key, item)))
    ensures Lands(ts, Insert(src[source].kind, ts, Slot(key, item)), Slot(key, item))
  {
    var kind, slots := src[source].kind, src[source].slots;
    ImagesStay(src, cells1, seen1, cells2, seen2, Kept(kind, slots[..i]), ts);
    ImagesStay(src, cells2, seen2, cells, seen, Kept(kind, slots[..i]), ts);
    InsertAppends(src, cells1, cells, seen, kind, slots, i, ts, Slot(key, item));
  }

  lemma ProgressThrough(src: Memory, grey: set<Ref>, cells0: Memory, seen0: map<Ref, Ref>,
                        cells: Memory, seen: map<Ref, Ref>, cells': Memory, seen': map<Ref, Ref>, source: Ref, v: Value)
    requires Progress(src, cells, seen, grey, cells0, seen0, Pointer(source))
    requires Progress(src, cells', seen', grey, cells, seen, v) && Holds(src, source, v)
    ensures Progress(src, cells', seen', grey, cells0, seen0, Pointer(source))
  {
    BelowAccumulates(src, source, v, seen0, seen, seen');
  }

  lemma FillingProgress(src: Memory, cells: Memory, seen: map<Ref, Ref>, grey: set<Ref>,
                        cells0: Memory, seen0: map<Ref, Ref>, source: Ref, slots: seq<Slot>)
    requires Progress(src, cells, seen, grey, cells0, seen0, Pointer(source))
    requires source in seen && source in grey && source in src && src[source].Container? && seen[source] !in cells0
    ensures Progress(src, cells[seen[source] := Container(src[source].kind, slots)], seen, grey, cells0, seen0, Pointer(source))
    ensures LeavesStay(cells, seen, cells[seen[source] := Container(src[source].kind, slots)], seen)
  {
    FillingKeeps(src, cells, seen, grey, source, slots);
  }

  lemma EntryVisited(src: Memory, cells2: Memory, seen1: map<Ref, Ref>, seen2: map<Ref, Ref>, cells: Memory, seen: map<Ref, Ref>,
                     slots: seq<Slot>, i: nat, key: Value, item: Value)
    requires i < |slots| && AllVisited(src, seen1, slots[..i])
    requires forall r :: r in seen1 ==> r in seen2
    requires forall r :: r in seen2 ==> r in seen
    requires Image(src, cells2, seen2, slots[i].key, key) && Image(src, cells, seen, slots[i].item, item)
    ensures AllVisited(src, seen, slots[..i + 1])
  {
    VisitedStay(src, seen1, seen, slots[..i]);
    assert slots[..i + 1] == slots[..i] + [slots[i]];
  }

  lemma EntryHeld(src: Memory, source: Ref, i: nat)
    requires source in src && src[source].Container? && i < |src[source].slots|
    ensures Holds(src, source, src[source].slots[i].key) && Holds(src, source, src[source].slots[i].item)
  {
    assert src[source].slots[i] in src[source].slots;
  }

  /** One turn of the fill loop, with the memory before the entry (1), after its key (2) and
      after its item. */
  lemma EntryFilled(src: Memory, grey: set<Ref>, cells0: Memory, seen0: map<Ref, Ref>, source: Ref, copy: Ref, i: nat,
                    cells1: Memory, seen1: map<Ref, Ref>, cells2: Memory, seen2: map<Ref, Ref>,
                    cells: Memory, seen: map<Ref, Ref>, key: Value, item: Value)
    requires WellFormed(src) && copy !in cells0
    requires Filling(src, cells1, seen1, grey, cells0, seen0, source, copy, i) && i < |src[source].slots|
    requires KeysStored(cells1, cells1[copy].slots)
    requires Progress(src, cells2, seen2, grey + {source}, cells1, seen1, src[source].slots[i].key)
    requires Image(src, cells2, seen2, src[source].slots[i].key, key)
    requires src[source].slots[i].key.Pointer? && src[src[source].slots[i].key.ref].Leaf? ==> key.Pointer? && key.ref !in cells1
    requires Progress(src, cells, seen, grey + {source}, cells2, seen2, src[source].slots[i].item)
    requires Image(src, cells, seen, src[source].slots[i].item, item)
    ensures copy in cells && cells[copy] == cells1[copy]
    ensures Lands(cells1[copy].slots, Insert(cells1[copy].kind, cells1[copy].slots, Slot(key, item)), Slot(key, item))
    ensures Filling(src, cells[copy := Container(cells1[copy].kind, Insert(cells1[copy].kind, cells1[copy].slots, Slot(key, item)))],
                    seen, grey, cells0, seen0, source, copy, i + 1)
  {
    var kind, slots, ts := src[source].kind, src[source].slots, cells1[copy].slots;
    var ts' := Insert(kind, ts, Slot(key, item));
    EntryHeld(src, source, i);
    ProgressThrough(src, grey + {source}, cells0, seen0, cells1, seen1, cells2, seen2, source, slots[i].key);
    ProgressThrough(src, grey + {source}, cells0, seen0, cells2, seen2, cells, seen, source, slots[i].item);
    FillingProgress(src, cells, seen, grey + {source}, cells0, seen0, source, ts');
    EntryLands(src, cells1, seen1, cells2, seen2, cells, seen, source, i, ts, key, item);
    ImagesStay(src, cells, seen, cells[copy := Container(kind, ts')], seen, Kept(kind, slots[..i + 1]), ts');
    EntryVisited(src, cells2, seen1, seen2, cells, seen, slots, i, key, item);
  }

  /** The same turn for the homes. */
  lemma EntryDone(src: Memory, grey: set<Ref>, cells0: Memory, seen0: map<Ref, Ref>, source: Ref, copy: Ref, i: nat,
                  cells1: Memory, seen1: map<Ref, Ref>, home1: map<Ref, Place>, cells2: Memory, seen2: map<Ref, Ref>,
                  cells: Memory, seen: map<Ref, Ref>, home: map<Ref, Place>, s: Slot, cells': Memory)
    requires WellFormed(src) && copy !in cells0
    requires Filling(src, cells1, seen1, grey, cells0, seen0, source, copy, i) && i < |src[source].slots|
    requires Progress(src, cells2, seen2, grey + {source}, cells1, seen1, src[source].slots[i].key)
    requires Image(src, cells2, seen2, src[source].slots[i].key, s.key)
    requires src[source].slots[i].key.Pointer? && src[src[source].slots[i].key.ref].Leaf? ==> s.key.Pointer? && s.key.ref !in cells1
    requires Progress(src, cells, seen, grey + {source}, cells2, seen2, src[source].slots[i].item)
    requires Image(src, cells, seen, src[source].slots[i].item, s.item)
    requires Homed(cells, seen, home) && HomesStay(cells1, home1, cells, home)
    requires AtHome(cells, home, At(source, KeyOf(|cells1[copy].slots|)), s.key)
    requires AtHome(cells, home, At(source, ItemOf(|cells1[copy].slots|)), s.item)
    requires cells' == cells[copy := Container(cells1[copy].kind, Insert(cells1[copy].kind, cells1[copy].slots, s))]
    ensures copy in cells && cells[copy] == cells1[copy]
    ensures Filling(src, cells', seen, grey, cells0, seen0, source, copy, i + 1)
    ensures Homed(cells', seen, home) && HomesStay(cells1, home1, cells', home)
  {
    CopyStored(src, cells1, seen1, grey, cells0, seen0, source, copy, i);
    EntryFilled(src, grey, cells0, seen0, source, copy, i, cells1, seen1, cells2, seen2, cells, seen, s.key, s.item);
    assert CopyAtHome(cells, seen, home, source);
    EntryHomed(cells, seen, home, source, Insert(cells1[copy].kind, cells1[copy].slots, s), s);
  }

  lemma EntryReady(src: Memory, cells: Memory, seen: map<Ref, Ref>, grey: set<Ref>,
                   cells0: Memory, seen0: map<Ref, Ref>, source: Ref, copy: Ref, i: nat)
    requires WellFormed(src) && Filling(src, cells, seen, grey, cells0, seen0, source, copy, i) && i < |src[source].slots|
    ensures source in cells && cells[source] == src[source] && Copying(src, cells, seen, grey + {source})
    ensures Stored(src, src[source].slots[i].key) && Stored(src, src[source].slots[i].item)
    ensures Holds(src, source, src[source].slots[i].key) && Holds(src, source, src[source].slots[i].item)
  {
    EntryHeld(src, source, i);
  }

  lemma CopyStored(src: Memory, cells: Memory, seen: map<Ref, Ref>, grey: set<Ref>,
                   cells0: Memory, seen0: map<Ref, Ref>, source: Ref, copy: Ref, i: nat)
    requires Filling(src, cells, seen, grey, cells0, seen0, source, copy, i)
    ensures KeysStored(cells, cells[copy].slots)
  {
    ImagesStored(src, cells, seen, Kept(src[source].kind, src[source].slots[..i]), cells[copy].slots);
  }

  lemma NothingToCopy(src: Memory, cells: Memory, seen: map<Ref, Ref>, grey: set<Ref>, v: Value)
    requires Copying(src, cells, seen, grey)
    ensures Progress(src, cells, seen, grey, cells, seen, v)
  {
  }

  lemma LeafCopied(src: Memory, cells: Memory, seen: map<Ref, Ref>, grey: set<Ref>, source: Ref, copy: Ref)
    requires Copying(src, cells, seen, grey) && copy !in cells && source in src && src[source].Leaf?
    ensures Progress(src, cells[copy := src[source]], seen, grey, cells, seen, Pointer(source))
    ensures Image(src, cells[copy := src[source]], seen, Pointer(source), Pointer(copy))
  {
    AllocatingKeeps(src, cells, seen, grey, copy, src[source]);
  }

  lemma ContainerBegun(src: Memory, cells: Memory, seen: map<Ref, Ref>, grey: set<Ref>, source: Ref, copy: Ref)
    requires Copying(src, cells, seen, grey) && copy !in cells
    requires source in src && src[source].Container? && source !in seen
    ensures Filling(src, cells[copy := Container(src[source].kind, [])], seen[source := copy], grey,
                    cells, seen, source, copy, 0)
  {
    var cells' := cells[copy := Container(src[source].kind, [])];
    AllocatingKeeps(src, cells, seen, grey, copy, Container(src[source].kind, []));
    forall q | q in seen ensures seen[q] != copy {
      assert RecordedAt(src, cells, seen, q);
    }
    RecordingKeeps(src, cells', seen, grey, source, copy);
    ReachesSelf(src, Pointer(source));
  }

  lemma ProtosThrough(cells0: Memory, protos0: map<Ref, Ref>, cells1: Memory, protos1: map<Ref, Ref>,
                      cells: Memory, protos: map<Ref, Ref>, copy: Ref, s: Slot)
    requires ProtosStay(cells0, protos0, protos1) && ProtosStay(cells1, protos1, protos)
    requires copy !in protos0 && copy !in cells0 && forall c :: c in cells0 ==> c in cells1
    ensures ProtosStay(cells0, protos0, ProtosAfter(cells, protos, copy, s))
  {
  }

  lemma PairStays(cells0: Memory, home0: map<Ref, Place>, protos0: map<Ref, Ref>, cells1: Memory, home1: map<Ref, Place>,
                  protos1: map<Ref, Ref>, cells2: Memory, home2: map<Ref, Place>, protos2: map<Ref, Ref>)
    requires HomesStay(cells0, home0, cells1, home1) && HomesStay(cells1, home1, cells2, home2)
    requires ProtosStay(cells0, protos0, protos1) && ProtosStay(cells1, protos1, protos2)
    ensures HomesStay(cells0, home0, cells2, home2) && ProtosStay(cells0, protos0, protos2)
  {
  }

  /** One turn of the fill loop for the prototypes. */
  lemma SlotAssigned(src: Memory, cells1: Memory, seen1: map<Ref, Ref>, protos1: map<Ref, Ref>, cells2: Memory, seen2: map<Ref, Ref>,
                     cells: Memory, seen: map<Ref, Ref>, protos: map<Ref, Ref>, grey: set<Ref>,
                     source: Ref, copy: Ref, i: nat, s: Slot, after: Memory)
    requires WellFormed(src) && Recorded(src, cells, seen) && Linked(src, cells, seen, protos, grey + {source})
    requires Assigned(src, cells1, seen1, protos1, source, i) && i < |src[source].slots| && seen1[source] == copy && copy in cells1
    requires Grows(cells1, seen1, cells2, seen2) && Grows(cells2, seen2, cells, seen) && ProtosStay(cells1, protos1, protos)
    requires Image(src, cells2, seen2, src[source].slots[i].key, s.key) && Image(src, cells, seen, src[source].slots[i].item, s.item)
    requires cells[copy].Container?
    requires after == cells[copy := Container(cells[copy].kind, Insert(cells[copy].kind, cells[copy].slots, s))]
    ensures !Throws(cells, protos, copy, s) ==>
              && Linked(src, after, seen, ProtosAfter(cells, protos, copy, s), grey + {source})
              && Assigned(src, after, seen, ProtosAfter(cells, protos, copy, s), source, i + 1)
    ensures Throws(cells, protos, copy, s) ==> Fails(src, Pointer(source))
  {
    AssignedStays(src, cells1, seen1, protos1, cells, seen, protos, source, i);
    if Throws(cells, protos, copy, s) {
      ThrowIsBad(src, cells, seen, protos, grey + {source}, source, i, s);
      FailsHere(src, Pointer(source));
    } else {
      EntryAssigned(src, cells, seen, protos, grey + {source}, source, copy, i, s, Insert(cells[copy].kind, cells[copy].slots, s));
    }
  }

  class Cloner {
    /** The memory the program sees, and the first reference never used. */
    var cells: Memory
    var next: Ref
    var seen: map<Ref, Ref>
    /** The prototypes of objects whose "__proto__" was assigned. */
    var protos: map<Ref, Ref>
    ghost var home: map<Ref, Place>

    ghost predicate Valid()
      reads this
    {
      forall r :: r in cells ==> r < next
    }

    constructor (memory: Memory, free: Ref)
      requires forall r :: r in memory ==> r < free
      ensures Valid() && cells == memory && seen == map[] && protos == map[] && home == map[]
    {
      cells, next, seen, protos, home := memory, free, map[], map[], map[];
    }

    method Allocate(cell: Cell) returns (r: Ref)
      requires Valid()
      modifies this`cells, this`next
      ensures Valid() && r == old(next) && r !in old(cells) && cells == old(cells)[r := cell]
      ensures seen == old(seen) && protos == old(protos) && home == old(home)
    {
      r := next;
      next := next + 1;
      cells := cells[r := cell];
    }

    /** `place` is where the caller will hold the result. */
    method CloneValue(value: Value, ghost src: Memory, ghost grey: set<Ref>, ghost place: Place) returns (result: Result)
      requires Valid() && WellFormed(src) && Stored(src, value) && Copying(src, cells, seen, grey) && Homed(cells, seen, home)
      requires Linked(src, cells, seen, protos, grey)
      modifies this
      ensures Valid() && old(seen).Keys <= seen.Keys
      ensures result.Cloned? ==>
                && Progress(src, cells, seen, grey, old(cells), old(seen), value)
                && Image(src, cells, seen, value, result.value)
                && Homed(cells, seen, home) && HomesStay(old(cells), old(home), cells, home)
                && AtHome(cells, home, place, result.value)
                && Linked(src, cells, seen, protos, grey) && ProtosStay(old(cells), old(protos), protos)
      ensures result.NotCloneable? ==> Fails(src, value)
      // What is not recorded is copied anew at every occurrence.
      ensures result.Cloned? && value.Pointer? && src[value.ref].Leaf? ==> result.value.Pointer? && result.value.ref !in old(cells)
      decreases src.Keys - seen.Keys, 1
    {
      NothingToCopy(src, cells, seen, grey, value);
      if value.Callable? {
        FailsHere(src, value);
        return NotCloneable;
      }
      if !value.Pointer? {
        return Cloned(value);
      }
      var source := value.ref;
      if source in seen {
        assert RecordedAt(src, cells, seen, source);
        return Cloned(Pointer(seen[source]));
      }
      if cells[source].Leaf? {
        LeafCopied(src, cells, seen, grey, source, next);
        LeafHomed(cells, seen, home, next, cells[source], place);
        LinkedStays(src, cells, seen, protos, grey, cells[next := cells[source]]);
        var copy := Allocate(cells[source]);
        home := home[copy := place];
        return Cloned(Pointer(copy));
      }
      result := CloneContainer(source, src, grey);
    }

    /** Records the empty copy before any child is cloned. */
    method Begin(source: Ref, ghost src: Memory, ghost grey: set<Ref>) returns (copy: Ref)
      requires Valid() && Copying(src, cells, seen, grey) && Homed(cells, seen, home) && Linked(src, cells, seen, protos, grey)
      requires source in src && src[source].Container? && source !in seen
      modifies this`cells, this`next, this`seen
      ensures Valid() && copy !in old(cells) && seen == old(seen)[source := copy] && protos == old(protos) && home == old(home)
      ensures Filling(src, cells, seen, grey, old(cells), old(seen), source, copy, 0)
      ensures Homed(cells, seen, home) && HomesStay(old(cells), home, cells, home)
      ensures Linked(src, cells, seen, protos, grey + {source}) && Assigned(src, cells, seen, protos, source, 0)
    {
      ContainerBegun(src, cells, seen, grey, source, next);
      LinkedBegins(src, cells, seen, protos, grey, source, next, Container(cells[source].kind, []));
      ContainerHomed(cells, seen, home, source, next, cells[source].kind);
      copy := Allocate(Container(cells[source].kind, []));
      seen := seen[source := copy];
    }

    /** The key of an entry and then its item; `cells2` and `seen2` are what was there in between. */
    method ClonePair(slot: Slot, ghost src: Memory, ghost grey: set<Ref>, ghost source: Ref, ghost n: nat)
      returns (key: Result, item: Result, ghost cells2: Memory, ghost seen2: map<Ref, Ref>)
      requires Valid() && WellFormed(src) && Stored(src, slot.key) && Stored(src, slot.item)
      requires Holds(src, source, slot.key) && Holds(src, source, slot.item)
      requires Copying(src, cells, seen, grey) && Homed(cells, seen, home) && Linked(src, cells, seen, protos, grey)
      modifies this
      ensures Valid() && old(seen).Keys <= seen.Keys
      ensures key.Cloned? ==>
                && Progress(src, cells2, seen2, grey, old(cells), old(seen), slot.key)
                && Image(src, cells2, seen2, slot.key, key.value)
                && (slot.key.Pointer? && src[slot.key.ref].Leaf? ==> key.value.Pointer? && key.value.ref !in old(cells))
      ensures key.Cloned? && item.Cloned? ==>
                && Progress(src, cells, seen, grey, cells2, seen2, slot.item)
                && Image(src, cells, seen, slot.item, item.value)
                && Homed(cells, seen, home) && HomesStay(old(cells), old(home), cells, home)
                && AtHome(cells, home, At(source, KeyOf(n)), key.value)
                && AtHome(cells, home, At(source, ItemOf(n)), item.value)
                && Linked(src, cells, seen, protos, grey) && ProtosStay(old(cells), old(protos), protos)
      ensures key.NotCloneable? ==> item.NotCloneable?
      ensures item.NotCloneable? ==> Fails(src, Pointer(source))
      decreases src.Keys - seen.Keys, 2
    {
      ghost var cells0, home0, protos0 := cells, home, protos;
      key := CloneValue(slot.key, src, grey, At(source, KeyOf(n)));
      cells2, seen2, item := cells, seen, NotCloneable;
      if key.NotCloneable? {
        FailsThrough(src, source, slot.key);
        return;
      }
      ghost var home2, protos2 := home, protos;
      item := CloneValue(slot.item, src, grey, At(source, ItemOf(n)));
      if item.NotCloneable? {
        FailsThrough(src, source, slot.item);
        return;
      }
      AtHomeStays(cells2, home2, cells, home, At(source, KeyOf(n)), key.value);
      PairStays(cells0, home0, protos0, cells2, home2, protos2, cells, home, protos);
    }

    /** The copies of one entry, not yet inserted, unless assigning them is going to throw; `after`
        and `linked` are the memory and the prototypes once they are. */
    method CloneSlot(source: Ref, copy: Ref, i: nat, ghost src: Memory, ghost grey: set<Ref>,
                     ghost cells0: Memory, ghost seen0: map<Ref, Ref>, ghost protos0: map<Ref, Ref>)
      returns (ok: bool, landed: Slot, ghost after: Memory, ghost linked: map<Ref, Ref>)
      requires Valid() && WellFormed(src) && copy !in cells0
      requires Filling(src, cells, seen, grey, cells0, seen0, source, copy, i) && i < |src[source].slots|
      requires Homed(cells, seen, home)
      requires Linked(src, cells, seen, protos, grey + {source}) && Assigned(src, cells, seen, protos, source, i)
      requires ProtosStay(cells0, protos0, protos) && copy !in protos0
      modifies this
      ensures Valid() && old(seen).Keys <= seen.Keys
      ensures ok ==> copy in cells && cells[copy].Container?
      ensures ok ==> after == cells[copy := Container(cells[copy].kind, Insert(cells[copy].kind, cells[copy].slots, landed))]
      ensures ok ==> Filling(src, after, seen, grey, cells0, seen0, source, copy, i + 1)
      ensures ok ==> Homed(after, seen, home) && HomesStay(old(cells), old(home), after, home)
      ensures ok ==> linked == ProtosAfter(cells, protos, copy, landed) && ProtosStay(cells0, protos0, linked)
      ensures ok ==> Linked(src, after, seen, linked, grey + {source}) && Assigned(src, after, seen, linked, source, i + 1)
      ensures !ok ==> Fails(src, Pointer(source))
      decreases src.Keys - seen.Keys, 3
    {
      EntryReady(src, cells, seen, grey, cells0, seen0, source, copy, i);
      var slot := cells[source].slots[i];
      ghost var seen1, cells1, home1, protos1 := seen, cells, home, protos;
      ghost var cells2, seen2;
      var key, item;
      key, item, cells2, seen2 := ClonePair(slot, src, grey + {source}, source, |cells[copy].slots|);
      ok, after, landed, linked := item.Cloned?, cells, slot, protos;
      if ok {
        landed := Slot(key.value, item.value);
        after := cells[copy := Container(cells1[copy].kind, Insert(cells1[copy].kind, cells1[copy].slots, landed))];
        EntryDone(src, grey, cells0, seen0, source, copy, i, cells1, seen1, home1, cells2, seen2, cells, seen, home, landed, after);
        linked := ProtosAfter(cells, protos, copy, landed);
        ProtosThrough(cells0, protos0, cells1, protos1, cells, protos, copy, landed);
        SlotAssigned(src, cells1, seen1, protos1, cells2, seen2, cells, seen, protos, grey, source, copy, i, landed, after);
        ok := !Throws(cells, protos, copy, landed);
      }
    }

    /** push, add, set, or `copy[key] = item`. */
    method Assign(copy: Ref, s: Slot, ghost src: Memory, ghost grey: set<Ref>, ghost cells0: Memory, ghost seen0: map<Ref, Ref>,
                  ghost source: Ref, ghost i: nat, ghost after: Memory, ghost linked: map<Ref, Ref>)
      requires Valid() && copy in cells && cells[copy].Container?
      requires after == cells[copy := Container(cells[copy].kind, Insert(cells[copy].kind, cells[copy].slots, s))]
      requires linked == ProtosAfter(cells, protos, copy, s)
      requires Filling(src, after, seen, grey, cells0, seen0, source, copy, i) && Homed(after, seen, home)
      requires Linked(src, after, seen, linked, grey + {source}) && Assigned(src, after, seen, linked, source, i)
      modifies this`cells, this`protos
      ensures Valid() && cells == after && protos == linked && seen == old(seen) && home == old(home)
      ensures Filling(src, cells, seen, grey, cells0, seen0, source, copy, i) && Homed(cells, seen, home)
      ensures Linked(src, cells, seen, protos, grey + {source}) && Assigned(src, cells, seen, protos, source, i)
    {
      protos := ProtosAfter(cells, protos, copy, s);
      cells := cells[copy := Container(cells[copy].kind, Insert(cells[copy].kind, cells[copy].slots, s))];
    }

    method CloneEntry(source: Ref, copy: Ref, i: nat, ghost src: Memory, ghost grey: set<Ref>,
                      ghost cells0: Memory, ghost seen0: map<Ref, Ref>, ghost protos0: map<Ref, Ref>)
      returns (ok: bool)
      requires Valid() && WellFormed(src) && copy !in cells0
      requires Filling(src, cells, seen, grey, cells0, seen0, source, copy, i) && i < |src[source].slots|
      requires Homed(cells, seen, home)
      requires Linked(src, cells, seen, protos, grey + {source}) && Assigned(src, cells, seen, protos, source, i)
      requires ProtosStay(cells0, protos0, protos) && copy !in protos0
      modifies this
      ensures Valid() && old(seen).Keys <= seen.Keys
      ensures ok ==> Filling(src, cells, seen, grey, cells0, seen0, source, copy, i + 1)
      ensures ok ==> Homed(cells, seen, home) && HomesStay(old(cells), old(home), cells, home)
      ensures ok ==> Linked(src, cells, seen, protos, grey + {source}) && Assigned(src, cells, seen, protos, source, i + 1)
      ensures ok ==> ProtosStay(cells0, protos0, protos)
      ensures !ok ==> Fails(src, Pointer(source))
      decreases src.Keys - seen.Keys, 4
    {
      var landed;
      ghost var after, linked;
      ok, landed, after, linked := CloneSlot(source, copy, i, src, grey, cells0, seen0, protos0);
      if ok {
        Assign(copy, landed, src, grey, cells0, seen0, source, i + 1, after, linked);
      }
    }

    /** One branch for the four loops of the source: record the empty copy, then fill it. */
    method CloneContainer(source: Ref, ghost src: Memory, ghost grey: set<Ref>) returns (result: Result)
      requires Valid() && WellFormed(src) && Copying(src, cells, seen, grey) && Homed(cells, seen, home)
      requires Linked(src, cells, seen, protos, grey)
      requires source in src && src[source].Container? && source !in seen
      modifies this
      ensures Valid() && old(seen).Keys <= seen.Keys
      ensures result.Cloned? ==>
                && Progress(src, cells, seen, grey, old(cells), old(seen), Pointer(source))
                && Image(src, cells, seen, Pointer(source), result.value)
                && Homed(cells, seen, home) && HomesStay(old(cells), old(home), cells, home)
                && Linked(src, cells, seen, protos, grey) && ProtosStay(old(cells), old(protos), protos)
      ensures result.NotCloneable? ==> Fails(src, Pointer(source))
      decreases src.Keys - seen.Keys, 0
    {
      var Container(kind, slots) := cells[source];
      var copy := Begin(source, src, grey);
      for i := 0 to |slots|
        invariant Valid() && old(seen).Keys < seen.Keys
        invariant Filling(src, cells, seen, grey, old(cells), old(seen), source, copy, i)
        invariant Homed(cells, seen, home) && HomesStay(old(cells), old(home), cells, home)
        invariant Linked(src, cells, seen, protos, grey + {source}) && Assigned(src, cells, seen, protos, source, i)
        invariant ProtosStay(old(cells), old(protos), protos)
      {
        var ok := CloneEntry(source, copy, i, src, grey, old(cells), old(seen), old(protos));
        if !ok {
          return NotCloneable;
        }
      }
      FillingDone(src, cells, seen, grey, old(cells), old(seen), source, copy);
      LinkedEnds(src, cells, seen, protos, grey, source);
      result := Cloned(Pointer(copy));
    }
  }

  // ---- what a finished clone is ---------------------------------------------------------------

  /** `seen` maps exactly the containers reachable from `v`, one to one, to filled new containers. */
  ghost predicate CloneOf(src: Memory, cells: Memory, seen: map<Ref, Ref>, v: Value, w: Value) {
    && Copying(src, cells, seen, {}) && Image(src, cells, seen, v, w)
    && (forall r :: r in seen <==> Reachable(src, v, r))
  }

  lemma {:induction false} VisitedBelow(src: Memory, cells: Memory, seen: map<Ref, Ref>, v: Value, path: seq<Ref>, w: Value)
    requires Copying(src, cells, seen, {}) && Visited(src, seen, v) && Path(src, v, path, w)
    ensures Visited(src, seen, w)
    decreases |path|
  {
    if path != [] {
      var r := path[0];
      var u :| Holds(src, r, u) && Path(src, u, path[1..], w);
      assert Filled(src, cells, seen, r);
      var s :| s in src[r].slots && (s.key == u || s.item == u);
      var i :| 0 <= i < |src[r].slots| && src[r].slots[i] == s;
      VisitedBelow(src, cells, seen, u, path[1..], w);
    }
  }

  lemma CloneComplete(src: Memory, cells: Memory, seen: map<Ref, Ref>, protos: map<Ref, Ref>, cells0: Memory, v: Value, w: Value)
    requires Progress(src, cells, seen, {}, cells0, map[], v) && Image(src, cells, seen, v, w)
    ensures CloneOf(src, cells, seen, v, w) && !Reaches(src, v, Callable)
    ensures Linked(src, cells, seen, protos, {}) ==> forall r :: Reachable(src, v, r) ==> !Blocked(src, r)
  {
    forall r | Reachable(src, v, r) ensures r in seen {
      var path :| Path(src, v, path, Pointer(r));
      VisitedBelow(src, cells, seen, v, path, Pointer(r));
    }
    forall path ensures !Path(src, v, path, Callable) {
      if Path(src, v, path, Callable) {
        VisitedBelow(src, cells, seen, v, path, Callable);
      }
    }
  }

  ghost predicate ReachesBlocked(src: Memory, v: Value) {
    exists r :: Reachable(src, v, r) && Blocked(src, r)
  }

  /** No own "__proto__" holds an object that itself owns such a "__proto__". */
  ghost predicate Flat(src: Memory, v: Value) {
    forall r :: Reachable(src, v, r) ==> !Deep(src, r)
  }

  lemma FailureExplained(src: Memory, v: Value)
    requires Fails(src, v) && Flat(src, v)
    ensures Reaches(src, v, Callable) || ReachesBlocked(src, v)
  {
    var w :| Bad(src, w) && Reaches(src, v, w);
    if w.Pointer? {
      assert Reachable(src, v, w.ref);
    }
  }

  predicate OwnsProto(c: Cell) {
    c.Container? && exists i :: 0 <= i < |c.slots| && !Copies(c.kind, c.slots[i])
  }

  ghost predicate ProtoFree(src: Memory, v: Value) {
    forall r :: Reachable(src, v, r) ==> !OwnsProto(src[r])
  }

  lemma ProtoFreeIsFlat(src: Memory, v: Value)
    requires ProtoFree(src, v)
    ensures Flat(src, v) && !ReachesBlocked(src, v)
  {
    forall r | Reachable(src, v, r) ensures !Deep(src, r) && !Blocked(src, r) {
      assert !OwnsProto(src[r]);
    }
  }

  /** `{["__proto__"]: new Map(), size: 1}` cannot be cloned, though no function is in it. */
  lemma MapBehindProto(one: string, m: Memory)
    requires m == map[0 := Container(ObjectKind, [Slot(ProtoName, Pointer(1)), Slot(GetterName(SizeName), Token(one))]),
                      1 := Container(MapKind, [])]
    ensures WellFormed(m) && ReachesBlocked(m, Pointer(0)) && !Reaches(m, Pointer(0), Callable)
  {
    assert BlockedAt(m, m[0].slots, 0, 1);
    ReachesSelf(m, Pointer(0));
    assert Reachable(m, Pointer(0), 0);
    forall path ensures !Path(m, Pointer(0), path, Callable) {
      NoCallable(m, Pointer(0), path);
    }
  }

  lemma {:induction false} NoCallable(m: Memory, v: Value, path: seq<Ref>)
    requires !v.Callable?
    requires forall r :: r in m && m[r].Container? ==> forall s :: s in m[r].slots ==> !s.key.Callable? && !s.item.Callable?
    ensures !Path(m, v, path, Callable)
    decreases |path|
  {
    if path != [] {
      forall u | Holds(m, path[0], u) ensures !Path(m, u, path[1..], Callable) {
        NoCallable(m, u, path[1..]);
      }
    }
  }

  /** structuredClone. Where no "__proto__" goes deeper than one object, it fails exactly when a
      function or symbol can be reached, or an object that owns a "__proto__" followed by a name
      the object in it has only a getter for; each of the two makes it fail in any case. Without an
      own "__proto__" only functions and symbols do. Otherwise it leaves the source as it was and
      yields a complete clone. */
  method Clone(memory: Memory, free: Ref, value: Value)
    returns (result: Result, after: Memory, ghost seen: map<Ref, Ref>, ghost home: map<Ref, Place>)
    requires WellFormed(memory) && Stored(memory, value) && forall r :: r in memory ==> r < free
    ensures Reaches(memory, value, Callable) || ReachesBlocked(memory, value) ==> result.NotCloneable?
    ensures result.NotCloneable? && Flat(memory, value) ==> Reaches(memory, value, Callable) || ReachesBlocked(memory, value)
    ensures ProtoFree(memory, value) ==> (result.NotCloneable? <==> Reaches(memory, value, Callable))
    ensures result.Cloned? ==> CloneOf(memory, after, seen, value, result.value) && Homed(after, seen, home)
  {
    var cloner := new Cloner(memory, free);
    result := cloner.CloneValue(value, memory, {}, Root);
    after, seen, home := cloner.cells, cloner.seen, cloner.home;
    if ProtoFree(memory, value) {
      ProtoFreeIsFlat(memory, value);
    }
    if result.Cloned? {
      CloneComplete(memory, after, seen, cloner.protos, memory, value, result.value);
    } else if Flat(memory, value) {
      FailureExplained(memory, value);
    }
  }

  // ---- what a program can observe ---------------------------------------------------------------

  function Part(s: Slot, a: Access): Value {
    if a.KeyOf? then s.key else s.item
  }

  /** The value found by following `steps` from `v`. */
  function Look(m: Memory, v: Value, steps: seq<Access>): Option<Value>
    decreases |steps|
  {
    if steps == [] then Some(v)
    else if v.Pointer? && v.ref in m && m[v.ref].Container? && steps[0].index < |m[v.ref].slots| then
      Look(m, Part(m[v.ref].slots[steps[0].index], steps[0]), steps[1..])
    else None
  }

  /** One step down in the source is one step down in the clone, unless an entry was lost. */
  lemma StepDown(src: Memory, cells: Memory, seen: map<Ref, Ref>, r: Ref, i: nat)
    requires Copying(src, cells, seen, {}) && r in seen && r in src && !OwnsProto(src[r])
    ensures src[r].Container? && seen[r] in cells && cells[seen[r]].Container?
    ensures |cells[seen[r]].slots| == |src[r].slots|
    ensures i < |src[r].slots| ==>
              && Image(src, cells, seen, src[r].slots[i].key, cells[seen[r]].slots[i].key)
              && Image(src, cells, seen, src[r].slots[i].item, cells[seen[r]].slots[i].item)
  {
    assert Filled(src, cells, seen, r);
    KeptAll(src[r].kind, src[r].slots);
  }

  /** A clone without lost entries answers every access path as the source does. */
  lemma {:induction false} LooksAgree(src: Memory, cells: Memory, seen: map<Ref, Ref>, v: Value, w: Value, steps: seq<Access>)
    requires Copying(src, cells, seen, {}) && Image(src, cells, seen, v, w)
    requires forall r :: r in seen ==> !OwnsProto(src[r])
    ensures Look(src, v, steps).Some? <==> Look(cells, w, steps).Some?
    ensures Look(src, v, steps).Some? ==> Image(src, cells, seen, Look(src, v, steps).value, Look(cells, w, steps).value)
    decreases |steps|
  {
    if steps != [] && v.Pointer? && src[v.ref].Container? {
      StepDown(src, cells, seen, v.ref, steps[0].index);
      if steps[0].index < |src[v.ref].slots| {
        LooksAgree(src, cells, seen, Part(src[v.ref].slots[steps[0].index], steps[0]),
                   Part(cells[w.ref].slots[steps[0].index], steps[0]), steps[1..]);
      }
    }
  }

  /** Values that are not Dates, regular expressions or buffers. */
  predicate Tracked(src: Memory, v: Value) {
    v.Pointer? ==> v.ref in src && src[v.ref].Container?
  }

  lemma ImagesMeet(src: Memory, cells: Memory, seen: map<Ref, Ref>, x: Value, x': Value, y: Value, y': Value)
    requires Recorded(src, cells, seen) && Tracked(src, x)
    requires Image(src, cells, seen, x, x') && Image(src, cells, seen, y, y')
    ensures x == y <==> x' == y'
  {
    if x.Pointer? && y.Pointer? {
      assert RecordedAt(src, cells, seen, x.ref);
      if src[y.ref].Container? {
        assert RecordedAt(src, cells, seen, y.ref);
      }
    }
  }

  /** A lost entry shows: some access path answers in the source only. */
  lemma {:induction false} LossShows(src: Memory, cells: Memory, seen: map<Ref, Ref>, v: Value, w: Value, path: seq<Ref>, r: Ref)
    returns (steps: seq<Access>)
    requires Copying(src, cells, seen, {}) && Image(src, cells, seen, v, w) && r in src && src[r].Container?
    requires Path(src, v, path, Pointer(r)) && OwnsProto(src[r])
    ensures Look(src, v, steps).Some? && Look(cells, w, steps).None?
    decreases |path|
  {
    assert v.Pointer? && v.ref in src && src[v.ref].Container?;
    if OwnsProto(src[v.ref]) {
      assert Filled(src, cells, seen, v.ref);
      KeptAll(src[v.ref].kind, src[v.ref].slots);
      steps := [KeyOf(|src[v.ref].slots| - 1)];
    } else {
      var u :| Holds(src, v.ref, u) && Path(src, u, path[1..], Pointer(r));
      var s :| s in src[v.ref].slots && (s.key == u || s.item == u);
      var i :| 0 <= i < |src[v.ref].slots| && src[v.ref].slots[i] == s;
      StepDown(src, cells, seen, v.ref, i);
      var a := if s.key == u then KeyOf(i) else ItemOf(i);
      var rest := LossShows(src, cells, seen, u, Part(cells[w.ref].slots[i], a), path[1..], r);
      steps := [a] + rest;
      assert steps[1..] == rest;
    }
  }

  /** The clone is faithful exactly when no reachable object owns a property named "__proto__". */
  lemma FaithfulExact(src: Memory, cells: Memory, seen: map<Ref, Ref>, v: Value, w: Value)
    requires CloneOf(src, cells, seen, v, w)
    ensures ProtoFree(src, v) <==> forall steps :: Look(src, v, steps).Some? <==> Look(cells, w, steps).Some?
  {
    if ProtoFree(src, v) {
      forall steps ensures Look(src, v, steps).Some? <==> Look(cells, w, steps).Some? {
        LooksAgree(src, cells, seen, v, w, steps);
      }
    } else {
      var r :| Reachable(src, v, r) && OwnsProto(src[r]);
      var path :| Path(src, v, path, Pointer(r));
      var steps := LossShows(src, cells, seen, v, w, path, r);
      assert Look(src, v, steps).Some? != Look(cells, w, steps).Some?;
    }
  }

  // ---- sharing ----------------------------------------------------------------------------------

  /** The place an access path ends in. */
  function Spot(m: Memory, v: Value, steps: seq<Access>): Place
    requires Look(m, v, steps).Some?
    decreases |steps|
  {
    if steps == [] then Root
    else if |steps| == 1 then At(v.ref, steps[0])
    else Spot(m, Part(m[v.ref].slots[steps[0].index], steps[0]), steps[1..])
  }

  predicate HasPart(m: Memory, r: Ref, a: Access) {
    r in m && m[r].Container? && a.index < |m[r].slots|
  }

  function PartAt(m: Memory, r: Ref, a: Access): Value
    requires HasPart(m, r, a)
  {
    Part(m[r].slots[a.index], a)
  }

  /** What a path answers is what its last container holds there. */
  lemma {:induction false} SpotHolds(src: Memory, v: Value, steps: seq<Access>)
    requires Look(src, v, steps).Some?
    ensures Spot(src, v, steps).Root? <==> steps == []
    ensures Spot(src, v, steps).At? ==>
              var At(r, a) := Spot(src, v, steps);
              HasPart(src, r, a) && Look(src, v, steps).value == PartAt(src, r, a) && Reachable(src, v, r)
    decreases |steps|
  {
    if |steps| == 1 {
      ReachesSelf(src, v);
    } else if steps != [] {
      var u := PartAt(src, v.ref, steps[0]);
      SpotHolds(src, u, steps[1..]);
      assert src[v.ref].slots[steps[0].index] in src[v.ref].slots;
      ReachesThrough(src, v.ref, u, Pointer(Spot(src, v, steps).holder));
    }
  }

  /** The same path in the clone ends in the copy of that container, at the same entry. */
  lemma {:induction false} CopySpotHolds(src: Memory, cells: Memory, seen: map<Ref, Ref>, v: Value, w: Value, steps: seq<Access>)
    requires Copying(src, cells, seen, {}) && Image(src, cells, seen, v, w) && steps != []
    requires forall r :: r in seen ==> !OwnsProto(src[r])
    requires Look(src, v, steps).Some?
    ensures Spot(src, v, steps).At?
    ensures var At(r, a) := Spot(src, v, steps);
            r in seen && HasPart(cells, seen[r], a) && Look(cells, w, steps) == Some(PartAt(cells, seen[r], a))
    decreases |steps|
  {
    StepDown(src, cells, seen, v.ref, steps[0].index);
    if |steps| > 1 {
      CopySpotHolds(src, cells, seen, PartAt(src, v.ref, steps[0]), PartAt(cells, w.ref, steps[0]), steps[1..]);
    }
  }

  /** A copied leaf is held at one place only. */
  lemma LeafHeldOnce(cells: Memory, seen: map<Ref, Ref>, home: map<Ref, Place>, r: Ref, a: Access, q: Ref, b: Access)
    requires Homed(cells, seen, home) && r in seen && q in seen
    requires HasPart(cells, seen[r], a) && HasPart(cells, seen[q], b)
    requires IsLeaf(cells, PartAt(cells, seen[r], a)) && PartAt(cells, seen[r], a) == PartAt(cells, seen[q], b)
    ensures r == q && a == b
  {
    assert CopyAtHome(cells, seen, home, r) && CopyAtHome(cells, seen, home, q);
    assert AtHome(cells, home, At(r, a), PartAt(cells, seen[r], a));
    assert AtHome(cells, home, At(q, b), PartAt(cells, seen[q], b));
  }

  lemma LeavesMeet(src: Memory, cells: Memory, seen: map<Ref, Ref>, home: map<Ref, Place>, v: Value, w: Value,
                   one: seq<Access>, two: seq<Access>)
    requires Copying(src, cells, seen, {}) && Image(src, cells, seen, v, w) && Homed(cells, seen, home)
    requires forall r :: r in seen ==> !OwnsProto(src[r])
    requires one != [] && two != [] && Look(src, v, one).Some? && Look(src, v, two).Some?
    requires Look(cells, w, one).Some? && IsLeaf(cells, Look(cells, w, one).value)
    ensures Look(cells, w, one) == Look(cells, w, two) <==> Spot(src, v, one) == Spot(src, v, two)
  {
    CopySpotHolds(src, cells, seen, v, w, one);
    CopySpotHolds(src, cells, seen, v, w, two);
    var At(r, a) := Spot(src, v, one);
    var At(q, b) := Spot(src, v, two);
    if Look(cells, w, one) == Look(cells, w, two) {
      LeafHeldOnce(cells, seen, home, r, a, q, b);
    }
  }

  lemma LeafMeetsRoot(src: Memory, cells: Memory, seen: map<Ref, Ref>, v: Value, w: Value, steps: seq<Access>)
    requires Recorded(src, cells, seen) && Image(src, cells, seen, v, w)
    requires steps != [] && Look(src, v, steps).Some?
    ensures !IsLeaf(src, v) && w.Pointer? && w.ref in cells && cells[w.ref].Container?
  {
    assert RecordedAt(src, cells, seen, v.ref);
  }

  /** When two access paths meet in the clone: paths to a container or a primitive exactly when
      they meet in the source, paths to a Date, regular expression or buffer exactly when they end
      in the same place. */
  lemma MeetExact(src: Memory, cells: Memory, seen: map<Ref, Ref>, home: map<Ref, Place>, v: Value, w: Value,
                  one: seq<Access>, two: seq<Access>)
    requires CloneOf(src, cells, seen, v, w) && Homed(cells, seen, home) && ProtoFree(src, v)
    requires Look(src, v, one).Some? && Look(src, v, two).Some?
    ensures Look(cells, w, one) == Look(cells, w, two) <==>
            if IsLeaf(src, Look(src, v, one).value) then Spot(src, v, one) == Spot(src, v, two)
            else Look(src, v, one) == Look(src, v, two)
  {
    LooksAgree(src, cells, seen, v, w, one);
    LooksAgree(src, cells, seen, v, w, two);
    if !IsLeaf(src, Look(src, v, one).value) {
      ImagesMeet(src, cells, seen, Look(src, v, one).value, Look(cells, w, one).value, Look(src, v, two).value, Look(cells, w, two).value);
    } else if one != [] && two != [] {
      LeavesMeet(src, cells, seen, home, v, w, one, two);
    } else if one != [] {
      LeafMeetsRoot(src, cells, seen, v, w, one);
      SpotHolds(src, v, one);
    } else if two != [] {
      LeafMeetsRoot(src, cells, seen, v, w, two);
    }
  }

  /** One Date, regular expression or buffer below `v` is found at both places. */
  ghost predicate HeldTwice(src: Memory, v: Value, r: Ref, a: Access, q: Ref, b: Access) {
    && Reachable(src, v, r) && Reachable(src, v, q) && HasPart(src, r, a) && HasPart(src, q, b)
    && IsLeaf(src, PartAt(src, r, a)) && PartAt(src, r, a) == PartAt(src, q, b)
  }

  /** Each is held at one place only. */
  ghost predicate LeavesOnce(src: Memory, v: Value) {
    forall r, a, q, b :: HeldTwice(src, v, r, a, q, b) ==> r == q && a == b
  }

  /** Two paths meet in the source exactly when they meet in the clone. */
  ghost predicate MeetAlike(src: Memory, v: Value, cells: Memory, w: Value, one: seq<Access>, two: seq<Access>) {
    Look(src, v, one).Some? && Look(src, v, two).Some? ==>
      (Look(src, v, one) == Look(src, v, two) <==> Look(cells, w, one) == Look(cells, w, two))
  }

  lemma {:induction false} PathTo(src: Memory, v: Value, path: seq<Ref>, r: Ref, a: Access) returns (steps: seq<Access>)
    requires HasPart(src, r, a) && Path(src, v, path, Pointer(r))
    ensures Look(src, v, steps) == Some(PartAt(src, r, a)) && Spot(src, v, steps) == At(r, a)
    decreases |path|
  {
    if path == [] {
      steps := [a];
    } else {
      var u :| Holds(src, v.ref, u) && Path(src, u, path[1..], Pointer(r));
      var s :| s in src[v.ref].slots && (s.key == u || s.item == u);
      var i :| 0 <= i < |src[v.ref].slots| && src[v.ref].slots[i] == s;
      var b := if s.key == u then KeyOf(i) else ItemOf(i);
      var rest := PathTo(src, u, path[1..], r, a);
      steps := [b] + rest;
      assert steps[1..] == rest && rest != [];
    }
  }

  lemma OnceMeansAlike(src: Memory, cells: Memory, seen: map<Ref, Ref>, home: map<Ref, Place>, v: Value, w: Value,
                       one: seq<Access>, two: seq<Access>)
    requires CloneOf(src, cells, seen, v, w) && Homed(cells, seen, home) && ProtoFree(src, v) && LeavesOnce(src, v)
    ensures MeetAlike(src, v, cells, w, one, two)
  {
    if Look(src, v, one).Some? && Look(src, v, two).Some? {
      MeetExact(src, cells, seen, home, v, w, one, two);
      SpotHolds(src, v, one);
      SpotHolds(src, v, two);
      if one != [] && two != [] && IsLeaf(src, Look(src, v, one).value) && Look(src, v, one) == Look(src, v, two) {
        var At(r, a) := Spot(src, v, one);
        var At(q, b) := Spot(src, v, two);
        assert HeldTwice(src, v, r, a, q, b);
      }
    }
  }

  /** Sharing survives whole exactly when no Date, regular expression or buffer is held twice. */
  lemma SharingSurvives(src: Memory, cells: Memory, seen: map<Ref, Ref>, home: map<Ref, Place>, v: Value, w: Value)
    requires CloneOf(src, cells, seen, v, w) && Homed(cells, seen, home) && ProtoFree(src, v)
    ensures LeavesOnce(src, v) <==> forall one, two :: MeetAlike(src, v, cells, w, one, two)
  {
    if LeavesOnce(src, v) {
      forall one, two ensures MeetAlike(src, v, cells, w, one, two) {
        OnceMeansAlike(src, cells, seen, home, v, w, one, two);
      }
    } else {
      var r, a, q, b :| HeldTwice(src, v, r, a, q, b) && !(r == q && a == b);
      var path :| Path(src, v, path, Pointer(r));
      var path' :| Path(src, v, path', Pointer(q));
      var one := PathTo(src, v, path, r, a);
      var two := PathTo(src, v, path', q, b);
      MeetExact(src, cells, seen, home, v, w, one, two);
      assert !MeetAlike(src, v, cells, w, one, two);
    }
  }

  /** No access path and no comparison of two tells the clone from the source exactly when no
      reachable object owns "__proto__" and no leaf is held twice. */
  lemma IndistinguishableExact(src: Memory, cells: Memory, seen: map<Ref, Ref>, home: map<Ref, Place>, v: Value, w: Value)
    requires CloneOf(src, cells, seen, v, w) && Homed(cells, seen, home)
    ensures ProtoFree(src, v) && LeavesOnce(src, v) <==>
            && (forall steps :: Look(src, v, steps).Some? <==> Look(cells, w, steps).Some?)
            && (forall one, two :: MeetAlike(src, v, cells, w, one, two))
  {
    FaithfulExact(src, cells, seen, v, w);
    if ProtoFree(src, v) {
      SharingSurvives(src, cells, seen, home, v, w);
    }
  }
}
