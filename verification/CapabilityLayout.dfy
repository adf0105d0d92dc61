/**
  The capability layout record of apps/web/src/capabilityLayout.ts: bounded placements, the
  arrivals a project has seen, and the mixed order of its two rails.
 */
module CapabilityLayout {
  import opened Prelude

  const MAX_PLACEMENT_OVERRIDES: nat := 128
  const MAX_SEEN_CAPABILITIES: nat := 512
  const MAX_RAIL_ORDER: nat := 256

  /** Plain names; names every object inherits ("constructor", "toString", ...), which `in`
      finds in an empty record; "__proto__", whose assignment creates no property but makes the
      placement the record's prototype; and "tier" and "rank", which `in` finds from then on. */
  datatype Id = Plain(name: string) | Inherited(name: string) | Proto | TierName | RankName

  datatype Tier = Primary | More | Technical

  datatype Placement = Placement(tier: Tier, rank: int)

  type Placements = map<Id, Placement>

  datatype Zone = Top | Right

  /** A rail's stored order; None until the first rearrangement. */
  datatype Layout = Layout(
    placements: Placements, seen: Option<set<Id>>, arranged: bool, top: Option<seq<Id>>, right: Option<seq<Id>>)

  datatype Arrival = Arrival(id: Id, placement: Option<Placement>, legacyTier: Option<Tier>, standardTier: Option<Tier>, standardRank: int)

  // ---- records as the language keeps them -------------------------------------------------

  /** `id in placements`; `replaced` says whether "__proto__" was assigned to this record. */
  predicate In(p: Placements, replaced: bool, id: Id) {
    id in p || id.Inherited? || id.Proto? || (replaced && (id.TierName? || id.RankName?))
  }

  /** `placements[id] = v`. */
  function Assign(p: Placements, id: Id, v: Placement): Placements {
    if id.Proto? then p else p[id := v]
  }

  function Mark(seen: set<Id>, id: Id): set<Id> {
    if id.Proto? then seen else seen + {id}
  }

  function Full(p: Placements): bool {
    |p| >= MAX_PLACEMENT_OVERRIDES
  }

  // ---- setPlacementOverride ------------------------------------------------------------------

  predicate Takes(p: Placements, replaced: bool, id: Id) {
    In(p, replaced, id) || !Full(p)
  }

  function Override(l: Layout, id: Id, v: Option<Placement>): Layout {
    if v.None? then l.(placements := l.placements - {id}, arranged := false)
    else if Takes(l.placements, false, id) then l.(placements := Assign(l.placements, id, v.value), arranged := false)
    else l
  }

  // ---- setCapabilityTierOrder -----------------------------------------------------------------

  predicate Distinct(ids: seq<Id>) {
    forall i, j :: 0 <= i < j < |ids| ==> ids[i] != ids[j]
  }

  /** Every id once, at its first place. */
  function Unique(ids: seq<Id>): (r: seq<Id>)
    ensures Distinct(r)
    ensures forall id :: id in r <==> id in ids
  {
    if ids == [] then []
    else
      var rest, last := Unique(ids[..|ids| - 1]), ids[|ids| - 1];
      assert ids == ids[..|ids| - 1] + [last];
      if last in rest then rest else rest + [last]
  }

  /** Place the ids at their ranks, stopping at the first that no longer fits. */
  function PlaceAll(p: Placements, replaced: bool, tier: Tier, ids: seq<Id>, rank: nat): Placements
    decreases |ids|
  {
    if ids == [] then p
    else if !Takes(p, replaced, ids[0]) then p
    else PlaceAll(Assign(p, ids[0], Placement(tier, rank)), replaced || ids[0].Proto?, tier, ids[1..], rank + 1)
  }

  function Take(ids: seq<Id>, n: nat): seq<Id> {
    if |ids| <= n then ids else ids[..n]
  }

  function Dropped(order: Option<seq<Id>>, moved: seq<Id>): Option<seq<Id>> {
    match order case None => None case Some(ids) => Some(Outside(ids, moved))
  }

  function Outside(ids: seq<Id>, moved: seq<Id>): (r: seq<Id>)
    ensures forall id :: id in r <==> id in ids && id !in moved
    ensures |r| <= |ids|
  {
    if ids == [] then []
    else if ids[0] in moved then Outside(ids[1..], moved)
    else [ids[0]] + Outside(ids[1..], moved)
  }

  function TierOrder(l: Layout, tier: Tier, ids: seq<Id>, rail: Option<(Zone, seq<Id>)>): Layout {
    var p := PlaceAll(l.placements, false, tier, Unique(ids), 0);
    match rail
    case None => l.(placements := p, arranged := false)
    case Some((zone, wanted)) =>
      var order := Take(Unique(wanted), MAX_RAIL_ORDER);
      if zone.Top? then Layout(p, l.seen, false, Some(order), Dropped(l.right, order))
      else Layout(p, l.seen, false, Dropped(l.top, order), Some(order))
  }

  // ---- seeding ------------------------------------------------------------------------------------

  /** The first 128 of a plan. */
  function Bounded(plan: seq<(Id, Placement)>, p: Placements): Placements
    decreases |plan|
  {
    if plan == [] || Full(p) then p else Bounded(plan[1..], Assign(p, plan[0].0, plan[0].1))
  }

  predicate NeedsDefault(l: Layout) {
    !l.arranged && l.placements == map[]
  }

  /** seedCapabilityLayoutForProject, for the active project; `arranged` is the mark of an
      untouched default arrangement. */
  function Seed(l: Layout, plan: seq<(Id, Placement)>, replace: bool): Layout {
    var next := Bounded(plan, map[]);
    if !NeedsDefault(l) && !(replace && l.arranged) then l
    else if next == map[] then l
    else l.(placements := next, arranged := true)
  }

  // ---- recordCapabilityArrivals ---------------------------------------------------------------------

  predicate Legacy(c: Arrival) {
    c.legacyTier.Some? && c.legacyTier != c.standardTier
  }

  /** Capabilities whose default tier moved keep the tier they were showing on. */
  function Migrate(p: Placements, seen: set<Id>, arrivals: seq<Arrival>): Placements
    decreases |arrivals|
  {
    if arrivals == [] then p
    else
      var c := arrivals[0];
      if c.id !in seen || In(p, false, c.id) || !Legacy(c) then Migrate(p, seen, arrivals[1..])
      else if Full(p) then p
      else Migrate(Assign(p, c.id, Placement(c.legacyTier.value, c.standardRank)), seen, arrivals[1..])
  }

  function Fresh(seen: set<Id>, arrivals: seq<Arrival>): (r: seq<Arrival>)
    ensures forall c :: c in r <==> c in arrivals && c.id !in seen
  {
    if arrivals == [] then []
    else if arrivals[0].id in seen then Fresh(seen, arrivals[1..])
    else [arrivals[0]] + Fresh(seen, arrivals[1..])
  }

  datatype Known = Known(seen: set<Id>, placements: Placements)

  /** Mark what is new, and place it when `place`. */
  function Arrive(k: Known, arriving: seq<Arrival>, place: bool): Known
    decreases |arriving|
  {
    if arriving == [] || |k.seen| >= MAX_SEEN_CAPABILITIES then k
    else
      var c := arriving[0];
      var seen := Mark(k.seen, c.id);
      if !place || c.placement.None? || In(k.placements, false, c.id) || Full(k.placements) then
        Arrive(Known(seen, k.placements), arriving[1..], place)
      else
        Arrive(Known(seen, Assign(k.placements, c.id, c.placement.value)), arriving[1..], place)
  }

  /** The record after arrivals; `plan` is the default plan when the caller passes one. */
  function Record(l: Layout, arrivals: seq<Arrival>, plan: Option<seq<(Id, Placement)>>): Layout {
    if plan.Some? && NeedsDefault(l) then
      if arrivals == [] then l
      else
        var k := Arrive(Known({}, Bounded(plan.value, map[])), arrivals, false);
        l.(placements := k.placements, seen := Some(k.seen), arranged := true)
    else
      var before := match l.seen case Some(seen) => seen case None => {};
      var p := if l.seen.Some? then Migrate(l.placements, before, arrivals) else l.placements;
      var arriving := Fresh(before, arrivals);
      if arriving == [] && p == l.placements then l
      else
        var k := Arrive(Known(before, p), arriving, l.seen.Some?);
        l.(placements := k.placements, seen := Some(k.seen))
  }

  // ---- what every operation keeps -------------------------------------------------------------------------

  ghost predicate NoDuplicates(order: Option<seq<Id>>) {
    order.Some? ==> |order.value| <= MAX_RAIL_ORDER && Distinct(order.value)
  }

  ghost predicate Apart(top: Option<seq<Id>>, right: Option<seq<Id>>) {
    top.Some? && right.Some? ==> forall id :: !(id in top.value && id in right.value)
  }

  ghost predicate Rails(l: Layout) {
    NoDuplicates(l.top) && NoDuplicates(l.right)
  }

  predicate Within(l: Layout) {
    |l.placements| <= MAX_PLACEMENT_OVERRIDES && (l.seen.Some? ==> |l.seen.value| <= MAX_SEEN_CAPABILITIES)
  }

  lemma AssignSize(p: Placements, id: Id, v: Placement)
    ensures |Assign(p, id, v)| == |p| + (if id.Proto? || id in p then 0 else 1)
  {
    if id in p && !id.Proto? {
      assert Assign(p, id, v).Keys == p.Keys;
    } else if !id.Proto? {
      assert Assign(p, id, v).Keys == p.Keys + {id};
    }
  }

  /** The bound of 128 is passed exactly when a full record takes a name every object inherits. */
  lemma OverrideExact(l: Layout, id: Id, v: Placement)
    requires Within(l)
    ensures |Override(l, id, Some(v)).placements| > MAX_PLACEMENT_OVERRIDES <==>
            Full(l.placements) && id.Inherited? && id !in l.placements
  {
    AssignSize(l.placements, id, v);
  }

  /** The id adds a placement when it is assigned. */
  predicate New(p: Placements, id: Id) {
    id !in p && !id.Proto?
  }

  /** How many placements the first `j` ids add. */
  function Added(p: Placements, ids: seq<Id>, j: nat): nat
    requires j <= |ids|
  {
    if j == 0 then 0 else (if New(p, ids[0]) then 1 else 0) + Added(p, ids[1..], j - 1)
  }

  /** `in` finds the id although it was not placed: inherited, or the prototype's own. */
  predicate Shown(replaced: bool, ids: seq<Id>, j: nat)
    requires j < |ids|
  {
    ids[j].Inherited? || ((ids[j].TierName? || ids[j].RankName?) && (replaced || exists i :: 0 <= i < j && ids[i].Proto?))
  }

  /** Position `j` passes the bound: it is shown and new, the record is full by then, and every
      other new id before it still fitted. */
  predicate Overfills(p: Placements, replaced: bool, ids: seq<Id>, j: nat) {
    && j < |ids| && Shown(replaced, ids, j) && New(p, ids[j]) && |p| + Added(p, ids, j) >= MAX_PLACEMENT_OVERRIDES
    && forall i :: 0 <= i < j && New(p, ids[i]) && !Shown(replaced, ids, i) ==>
         |p| + Added(p, ids, i) < MAX_PLACEMENT_OVERRIDES
  }

  lemma {:induction false} PlaceGrows(p: Placements, replaced: bool, tier: Tier, ids: seq<Id>, rank: nat)
    ensures |PlaceAll(p, replaced, tier, ids, rank)| >= |p|
    decreases |ids|
  {
    if ids != [] && Takes(p, replaced, ids[0]) {
      AssignSize(p, ids[0], Placement(tier, rank));
      PlaceGrows(Assign(p, ids[0], Placement(tier, rank)), replaced || ids[0].Proto?, tier, ids[1..], rank + 1);
    }
  }

  lemma {:induction false} AddedElsewhere(p: Placements, id: Id, v: Placement, ids: seq<Id>, j: nat)
    requires j <= |ids| && id !in ids
    ensures Added(Assign(p, id, v), ids, j) == Added(p, ids, j)
    decreases j
  {
    if j > 0 {
      AddedElsewhere(p, id, v, ids[1..], j - 1);
    }
  }

  lemma OneLater(p: Placements, replaced: bool, ids: seq<Id>, v: Placement, i: nat)
    requires 0 < i < |ids| && Distinct(ids)
    ensures var q := Assign(p, ids[0], v);
            && New(q, ids[1..][i - 1]) == New(p, ids[i])
            && Shown(replaced || ids[0].Proto?, ids[1..], i - 1) == Shown(replaced, ids, i)
            && |q| + Added(q, ids[1..], i - 1) == |p| + Added(p, ids, i)
  {
    AssignSize(p, ids[0], v);
    assert ids[i] != ids[0];
    ShownLater(replaced, ids, i);
    AddedElsewhere(p, ids[0], v, ids[1..], i - 1);
  }

  /** Seen after its first id is placed, the list is the same question one position on. */
  lemma OverfillsLater(p: Placements, replaced: bool, ids: seq<Id>, v: Placement, j: nat)
    requires 0 < j < |ids| && Distinct(ids) && Takes(p, replaced, ids[0])
    ensures Overfills(p, replaced, ids, j) <==> Overfills(Assign(p, ids[0], v), replaced || ids[0].Proto?, ids[1..], j - 1)
  {
    var q, later := Assign(p, ids[0], v), replaced || ids[0].Proto?;
    AssignSize(p, ids[0], v);
    forall i | 0 < i < |ids|
      ensures New(q, ids[1..][i - 1]) == New(p, ids[i])
      ensures Shown(later, ids[1..], i - 1) == Shown(replaced, ids, i)
      ensures |q| + Added(q, ids[1..], i - 1) == |p| + Added(p, ids, i)
    {
      OneLater(p, replaced, ids, v, i);
    }
    assert New(p, ids[0]) && !Shown(replaced, ids, 0) ==> |p| + Added(p, ids, 0) < MAX_PLACEMENT_OVERRIDES;
    if Overfills(p, replaced, ids, j) {
      forall i | 0 <= i < j - 1 && New(q, ids[1..][i]) && !Shown(later, ids[1..], i)
        ensures |q| + Added(q, ids[1..], i) < MAX_PLACEMENT_OVERRIDES
      {
        assert New(p, ids[i + 1]) && !Shown(replaced, ids, i + 1);
      }
    }
    if Overfills(q, later, ids[1..], j - 1) {
      forall i | 0 <= i < j && New(p, ids[i]) && !Shown(replaced, ids, i)
        ensures |p| + Added(p, ids, i) < MAX_PLACEMENT_OVERRIDES
      {
        if i > 0 {
          assert New(q, ids[1..][i - 1]) && !Shown(later, ids[1..], i - 1);
        }
      }
    }
  }

  lemma ShownLater(replaced: bool, ids: seq<Id>, i: nat)
    requires 0 < i < |ids|
    ensures Shown(replaced || ids[0].Proto?, ids[1..], i - 1) == Shown(replaced, ids, i)
  {
    if exists k :: 0 <= k < i && ids[k].Proto? {
      var k :| 0 <= k < i && ids[k].Proto?;
      assert k > 0 ==> ids[1..][k - 1].Proto?;
    }
    if exists k :: 0 <= k < i - 1 && ids[1..][k].Proto? {
      var k :| 0 <= k < i - 1 && ids[1..][k].Proto?;
      assert ids[k + 1].Proto?;
    }
  }

  /** An order list passes the bound exactly when some position of it overfills. */
  lemma {:induction false} PlaceExact(p: Placements, replaced: bool, tier: Tier, ids: seq<Id>, rank: nat)
    requires |p| <= MAX_PLACEMENT_OVERRIDES && Distinct(ids)
    ensures |PlaceAll(p, replaced, tier, ids, rank)| > MAX_PLACEMENT_OVERRIDES <==> exists j: nat :: Overfills(p, replaced, ids, j)
    decreases |ids|
  {
    if ids != [] {
      var v := Placement(tier, rank);
      var q, later := Assign(p, ids[0], v), replaced || ids[0].Proto?;
      AssignSize(p, ids[0], v);
      assert Overfills(p, replaced, ids, 0) <==> Shown(replaced, ids, 0) && New(p, ids[0]) && Full(p);
      if !Takes(p, replaced, ids[0]) {
        forall j: nat ensures !Overfills(p, replaced, ids, j) {
          assert New(p, ids[0]) && !Shown(replaced, ids, 0) && Added(p, ids, 0) == 0;
        }
      } else if |q| > MAX_PLACEMENT_OVERRIDES {
        PlaceGrows(q, later, tier, ids[1..], rank + 1);
        assert Overfills(p, replaced, ids, 0);
      } else {
        var rest := ids[1..];
        PlaceExact(q, later, tier, rest, rank + 1);
        OneOnLater(p, replaced, ids, v, q, later, rest);
      }
    }
  }

  lemma OneOnLater(p: Placements, replaced: bool, ids: seq<Id>, v: Placement, q: Placements, later: bool, rest: seq<Id>)
    requires ids != [] && Distinct(ids) && Takes(p, replaced, ids[0])
    requires q == Assign(p, ids[0], v) && |q| <= MAX_PLACEMENT_OVERRIDES
    requires later == (replaced || ids[0].Proto?) && rest == ids[1..]
    ensures (exists j: nat :: Overfills(p, replaced, ids, j)) <==> exists j: nat :: Overfills(q, later, rest, j)
  {
    AssignSize(p, ids[0], v);
    if exists j: nat :: Overfills(p, replaced, ids, j) {
      var j: nat :| Overfills(p, replaced, ids, j);
      assert j != 0;
      OverfillsLater(p, replaced, ids, v, j);
      assert Overfills(q, later, rest, j - 1);
    }
    if exists j: nat :: Overfills(q, later, rest, j) {
      var j: nat :| Overfills(q, later, rest, j);
      OverfillsLater(p, replaced, ids, v, j + 1);
    }
  }

  /** A list with no new inherited name, and neither "tier" nor "rank" new behind "__proto__",
      keeps the bound. */
  lemma PlaceWithin(p: Placements, tier: Tier, ids: seq<Id>)
    requires |p| <= MAX_PLACEMENT_OVERRIDES && Distinct(ids)
    requires forall j :: 0 <= j < |ids| ==> !(Shown(false, ids, j) && New(p, ids[j]))
    ensures |PlaceAll(p, false, tier, ids, 0)| <= MAX_PLACEMENT_OVERRIDES
  {
    PlaceExact(p, false, tier, ids, 0);
  }

  /** The shortest such list without an inherited name: a full record still takes "tier". */
  lemma PrototypeOpensRecord(p: Placements, tier: Tier)
    requires |p| == MAX_PLACEMENT_OVERRIDES && TierName !in p
    ensures |PlaceAll(p, false, tier, [Proto, TierName], 0)| == MAX_PLACEMENT_OVERRIDES + 1
  {
    AssignSize(p, TierName, Placement(tier, 1));
    assert [Proto, TierName][1..] == [TierName] && [TierName][1..] == [];
    assert PlaceAll(p, false, tier, [Proto, TierName], 0) == PlaceAll(p, true, tier, [TierName], 1);
  }

  /** Rearranging keeps both rails free of duplicates and apart, whatever is dropped where. */
  lemma TierOrderRails(l: Layout, tier: Tier, ids: seq<Id>, zone: Zone, wanted: seq<Id>)
    requires Rails(l)
    ensures var m := TierOrder(l, tier, ids, Some((zone, wanted)));
            Rails(m) && Apart(m.top, m.right)
  {
    var order := Take(Unique(wanted), MAX_RAIL_ORDER);
    if zone.Top? && l.right.Some? {
      OutsideUnique(l.right.value, order);
    } else if zone.Right? && l.top.Some? {
      OutsideUnique(l.top.value, order);
    }
  }

  lemma {:induction false} OutsideUnique(ids: seq<Id>, moved: seq<Id>)
    requires Distinct(ids)
    ensures Distinct(Outside(ids, moved))
  {
    if ids != [] {
      OutsideUnique(ids[1..], moved);
      var r := Outside(ids[1..], moved);
      forall i | 0 <= i < |r| ensures r[i] != ids[0] {
        assert r[i] in ids[1..];
      }
    }
  }

  // ---- arrivals -------------------------------------------------------------------------------------------

  /** `q` keeps every placement of `p`. */
  ghost predicate Extends(p: Placements, q: Placements) {
    forall id :: id in p ==> id in q && q[id] == p[id]
  }

  lemma {:induction false} MigrateFacts(p: Placements, seen: set<Id>, arrivals: seq<Arrival>)
    ensures Extends(p, Migrate(p, seen, arrivals))
    ensures |p| <= MAX_PLACEMENT_OVERRIDES ==> |Migrate(p, seen, arrivals)| <= MAX_PLACEMENT_OVERRIDES
    // Whatever is left to migrate does not fit.
    ensures forall c :: c in arrivals && c.id in seen && Legacy(c) && !In(Migrate(p, seen, arrivals), false, c.id) ==>
              Full(Migrate(p, seen, arrivals))
    decreases |arrivals|
  {
    if arrivals != [] {
      var c := arrivals[0];
      if c.id !in seen || In(p, false, c.id) || !Legacy(c) {
        MigrateFacts(p, seen, arrivals[1..]);
      } else if !Full(p) {
        var q := Assign(p, c.id, Placement(c.legacyTier.value, c.standardRank));
        AssignSize(p, c.id, Placement(c.legacyTier.value, c.standardRank));
        MigrateFacts(q, seen, arrivals[1..]);
      }
    }
  }

  lemma {:induction false} MigratedIsFixed(p: Placements, seen: set<Id>, arrivals: seq<Arrival>)
    requires forall c :: c in arrivals && c.id in seen && Legacy(c) && !In(p, false, c.id) ==> Full(p)
    ensures Migrate(p, seen, arrivals) == p
    decreases |arrivals|
  {
    if arrivals != [] {
      MigratedIsFixed(p, seen, arrivals[1..]);
    }
  }

  lemma {:induction false} ArriveFacts(k: Known, arriving: seq<Arrival>, place: bool)
    ensures var r := Arrive(k, arriving, place);
            && k.seen <= r.seen && Extends(k.placements, r.placements)
            && (|k.seen| <= MAX_SEEN_CAPABILITIES ==> |r.seen| <= MAX_SEEN_CAPABILITIES)
            && (|k.placements| <= MAX_PLACEMENT_OVERRIDES ==> |r.placements| <= MAX_PLACEMENT_OVERRIDES)
            && (forall c :: c in arriving && c.id !in r.seen ==> c.id.Proto? || |r.seen| >= MAX_SEEN_CAPABILITIES)
    decreases |arriving|
  {
    if arriving != [] && |k.seen| < MAX_SEEN_CAPABILITIES {
      var c := arriving[0];
      var seen := Mark(k.seen, c.id);
      if !place || c.placement.None? || In(k.placements, false, c.id) || Full(k.placements) {
        ArriveFacts(Known(seen, k.placements), arriving[1..], place);
      } else {
        AssignSize(k.placements, c.id, c.placement.value);
        ArriveFacts(Known(seen, Assign(k.placements, c.id, c.placement.value)), arriving[1..], place);
      }
    }
  }

  /** Only "__proto__", or a full record, is left unmarked, and neither changes anything. */
  lemma {:induction false} NothingArrives(k: Known, arriving: seq<Arrival>, place: bool)
    requires forall c :: c in arriving ==> c.id.Proto? || |k.seen| >= MAX_SEEN_CAPABILITIES
    ensures Arrive(k, arriving, place) == k
    decreases |arriving|
  {
    if arriving != [] && |k.seen| < MAX_SEEN_CAPABILITIES {
      assert arriving[0] in arriving;
      NothingArrives(k, arriving[1..], place);
    }
  }

  predicate Seeds(l: Layout, plan: Option<seq<(Id, Placement)>>) {
    plan.Some? && NeedsDefault(l)
  }

  /** Without seeding, recording arrivals drops and changes nothing recorded before, and keeps
      every bound. */
  lemma RecordOnlyAdds(l: Layout, arrivals: seq<Arrival>, plan: Option<seq<(Id, Placement)>>)
    requires !Seeds(l, plan)
    ensures var m := Record(l, arrivals, plan);
            && Extends(l.placements, m.placements)
            && (l.seen.Some? ==> m.seen.Some? && l.seen.value <= m.seen.value)
            && (Within(l) ==> Within(m))
            && m.top == l.top && m.right == l.right && m.arranged == l.arranged
  {
    var before := match l.seen case Some(seen) => seen case None => {};
    MigrateFacts(l.placements, before, arrivals);
    var p := if l.seen.Some? then Migrate(l.placements, before, arrivals) else l.placements;
    ArriveFacts(Known(before, p), Fresh(before, arrivals), l.seen.Some?);
  }

  /** What the first call leaves: everything marked that can be. */
  lemma FirstCallMarks(l: Layout, arrivals: seq<Arrival>, c: Arrival)
    requires c in arrivals
    ensures var m := Record(l, arrivals, None);
            m.seen.Some? && (c.id in m.seen.value || c.id.Proto? || |m.seen.value| >= MAX_SEEN_CAPABILITIES)
  {
    var before := match l.seen case Some(seen) => seen case None => {};
    var p := if l.seen.Some? then Migrate(l.placements, before, arrivals) else l.placements;
    ArriveFacts(Known(before, p), Fresh(before, arrivals), l.seen.Some?);
    if c.id !in before {
      assert c in Fresh(before, arrivals);
    }
  }

  /** Repeating the same arrivals reaches a fixed record by the second call. */
  lemma FixedBySecondCall(l: Layout, arrivals: seq<Arrival>)
    ensures var second := Record(Record(l, arrivals, None), arrivals, None);
            Record(second, arrivals, None) == second
  {
    var first := Record(l, arrivals, None);
    var second := Record(first, arrivals, None);
    if arrivals == [] {
      assert first == l;
    } else {
      assert arrivals[0] in arrivals;
      FirstCallMarks(l, arrivals, arrivals[0]);
      var seen := first.seen.value;
      forall c | c in Fresh(seen, arrivals) ensures c.id.Proto? || |seen| >= MAX_SEEN_CAPABILITIES {
        FirstCallMarks(l, arrivals, c);
      }
      var p := Migrate(first.placements, seen, arrivals);
      NothingArrives(Known(seen, p), Fresh(seen, arrivals), true);
      MigrateFacts(first.placements, seen, arrivals);
      MigratedIsFixed(p, seen, arrivals);
      assert second.placements == p && second.seen == Some(seen);
    }
  }

  lemma {:induction false} BoundedWithin(plan: seq<(Id, Placement)>, p: Placements)
    requires |p| <= MAX_PLACEMENT_OVERRIDES
    ensures |Bounded(plan, p)| <= MAX_PLACEMENT_OVERRIDES
    decreases |plan|
  {
    if plan != [] && !Full(p) {
      AssignSize(p, plan[0].0, plan[0].1);
      BoundedWithin(plan[1..], Assign(p, plan[0].0, plan[0].1));
    }
  }

  /** Seeding fills an untouched record only, and within the bound. */
  lemma SeedFacts(l: Layout, plan: seq<(Id, Placement)>, replace: bool)
    requires Within(l)
    ensures Within(Seed(l, plan, replace))
    ensures Seed(l, plan, replace) != l ==> (l.arranged && replace) || (l.placements == map[] && !l.arranged)
  {
    BoundedWithin(plan, map[]);
  }

  // ---- moveCapabilityBefore ---------------------------------------------------------------------------------

  function Position(ids: seq<Id>, id: Id): (k: nat)
    requires id in ids
    ensures k < |ids| && ids[k] == id
  {
    if ids[0] == id then 0 else 1 + Position(ids[1..], id)
  }

  function MoveBefore(ordered: seq<Id>, dragged: Id, target: Id): seq<Id> {
    if dragged == target || target !in ordered then ordered
    else
      var rest := Outside(ordered, [dragged]);
      var k := Position(rest, target);
      rest[..k] + [dragged] + rest[k..]
  }

  lemma {:induction false} OutsideSplit(a: seq<Id>, b: seq<Id>, moved: seq<Id>)
    ensures Outside(a + b, moved) == Outside(a, moved) + Outside(b, moved)
  {
    if a == [] {
      assert a + b == b;
    } else {
      assert (a + b)[1..] == a[1..] + b;
      OutsideSplit(a[1..], b, moved);
    }
  }

  lemma {:induction false} OutsideAgain(ids: seq<Id>, moved: seq<Id>)
    ensures Outside(Outside(ids, moved), moved) == Outside(ids, moved)
  {
    if ids != [] {
      OutsideAgain(ids[1..], moved);
    }
  }

  lemma SplicedOutside(a: seq<Id>, b: seq<Id>, dragged: Id)
    ensures Outside(a + [dragged] + b, [dragged]) == Outside(a + b, [dragged])
  {
    OutsideSplit(a, b, [dragged]);
    OutsideSplit(a + [dragged], b, [dragged]);
    OutsideSplit(a, [dragged], [dragged]);
    assert Outside([dragged], [dragged]) == [];
    assert Outside(a, [dragged]) + [] == Outside(a, [dragged]);
  }

  lemma MovedBefore(rest: seq<Id>, k: nat, dragged: Id)
    requires k < |rest| && Outside(rest, [dragged]) == rest
    ensures var r := rest[..k] + [dragged] + rest[k..];
            Outside(r, [dragged]) == rest && k + 1 < |r| && r[k] == dragged && r[k + 1] == rest[k]
  {
    assert rest == rest[..k] + rest[k..];
    SplicedOutside(rest[..k], rest[k..], dragged);
  }

  /** A move leaves the order of everything else alone, and puts the dragged id directly before
      its target. */
  lemma MoveFacts(ordered: seq<Id>, dragged: Id, target: Id)
    requires target in ordered && dragged != target
    ensures var r := MoveBefore(ordered, dragged, target);
            && Outside(r, [dragged]) == Outside(ordered, [dragged])
            && (exists k :: 0 <= k && k + 1 < |r| && r[k] == dragged && r[k + 1] == target)
  {
    var rest := Outside(ordered, [dragged]);
    OutsideAgain(ordered, [dragged]);
    MovedBefore(rest, Position(rest, target), dragged);
  }

  /** ... and neither loses nor doubles an id. */
  lemma MovePermutes(ordered: seq<Id>, dragged: Id, target: Id)
    requires Distinct(ordered) && target in ordered && dragged != target
    ensures Distinct(MoveBefore(ordered, dragged, target))
    ensures forall id :: id in MoveBefore(ordered, dragged, target) <==> id in ordered || id == dragged
  {
    var rest := Outside(ordered, [dragged]);
    OutsideUnique(ordered, [dragged]);
    forall i | 0 <= i < |rest| ensures rest[i] != dragged {
      assert rest[i] in rest;
    }
    MoveMembers(rest, Position(rest, target), dragged, MoveBefore(ordered, dragged, target));
  }

  lemma MoveMembers(rest: seq<Id>, k: nat, dragged: Id, r: seq<Id>)
    requires k <= |rest| && r == rest[..k] + [dragged] + rest[k..] && Distinct(rest)
    requires forall i :: 0 <= i < |rest| ==> rest[i] != dragged
    ensures Distinct(r) && forall id :: id in r <==> id in rest || id == dragged
  {
    assert rest == rest[..k] + rest[k..];
    forall i, j | 0 <= i < j < |r| ensures r[i] != r[j] {
      assert r[i] == if i < k then rest[i] else if i == k then dragged else rest[i - 1];
      assert r[j] == if j < k then rest[j] else if j == k then dragged else rest[j - 1];
    }
  }
}
