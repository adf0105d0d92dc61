/**
  What the operations of CapabilityLayout leave for each id: the tier and rank an ordered list
  gives it, the placement of a plan, a migration or an arrival, and its place on a rail.
 */
module CapabilityPlaces {
  import opened Prelude
  import opened CapabilityLayout

  /** The record says of the id what it said before. */
  predicate Kept(p: Placements, q: Placements, id: Id) {
    && (id in q <==> id in p)
    && (id in p ==> q[id] == p[id])
  }

  // ---- lists ---------------------------------------------------------------------------------

  lemma {:induction false} PositionIsFirst(ids: seq<Id>, id: Id, k: nat)
    requires k < |ids| && ids[k] == id && forall i :: 0 <= i < k ==> ids[i] != id
    ensures Position(ids, id) == k
  {
    if k > 0 {
      assert ids[0] != id;
      PositionIsFirst(ids[1..], id, k - 1);
    }
  }

  lemma {:induction false} FirstPosition(ids: seq<Id>, id: Id)
    requires id in ids
    ensures forall i :: 0 <= i < Position(ids, id) ==> ids[i] != id
  {
    if ids[0] != id {
      FirstPosition(ids[1..], id);
      forall i | 0 <= i < Position(ids, id) ensures ids[i] != id {
        assert i > 0 ==> ids[i] == ids[1..][i - 1];
      }
    }
  }

  /** `r` lists some of `ids`, each once, in the order of their first places. */
  ghost predicate InOrder(r: seq<Id>, ids: seq<Id>) {
    && (forall i :: 0 <= i < |r| ==> r[i] in ids)
    && (forall i, j :: 0 <= i < j < |r| ==> Position(ids, r[i]) < Position(ids, r[j]))
  }

  lemma PositionInPrefix(ids: seq<Id>, n: nat, id: Id)
    requires n <= |ids| && id in ids[..n]
    ensures Position(ids, id) == Position(ids[..n], id)
  {
    var k := Position(ids[..n], id);
    FirstPosition(ids[..n], id);
    forall i | 0 <= i < k ensures ids[i] != id {
      assert ids[i] == ids[..n][i];
    }
    PositionIsFirst(ids, id, k);
  }

  /** Every id once, in the order of the first places. */
  lemma {:induction false} UniqueExact(ids: seq<Id>)
    ensures InOrder(Unique(ids), ids) && forall id :: id in ids ==> id in Unique(ids)
  {
    if ids != [] {
      var n := |ids| - 1;
      var rest, last := Unique(ids[..n]), ids[n];
      UniqueExact(ids[..n]);
      assert ids == ids[..n] + [last];
      forall i | 0 <= i < |rest| ensures Position(ids, rest[i]) == Position(ids[..n], rest[i]) {
        PositionInPrefix(ids, n, rest[i]);
      }
      if last !in rest {
        PositionIsFirst(ids, last, n);
      }
    }
  }

  /** What stays on a rail keeps its order. */
  lemma {:induction false} OutsideInOrder(ids: seq<Id>, moved: seq<Id>)
    requires Distinct(ids)
    ensures InOrder(Outside(ids, moved), ids)
  {
    if ids != [] {
      var rest := Outside(ids[1..], moved);
      OutsideInOrder(ids[1..], moved);
      forall i | 0 <= i < |rest|
        ensures rest[i] in ids && Position(ids, rest[i]) == 1 + Position(ids[1..], rest[i])
      {
        assert rest[i] in ids[1..];
      }
    }
  }

  // ---- setPlacementOverride -------------------------------------------------------------------

  /** The override changes its own id alone: it is placed there, removed, or refused for want of
      room; any accepted call counts as the person's own arrangement. */
  lemma OverrideSets(l: Layout, id: Id, v: Option<Placement>, other: Id)
    ensures var m := Override(l, id, v);
            && (other != id ==> Kept(l.placements, m.placements, other))
            && (v.None? ==> id !in m.placements)
            && (v.Some? && !id.Proto? && (id in l.placements || id.Inherited? || |l.placements| < MAX_PLACEMENT_OVERRIDES) ==>
                  id in m.placements && m.placements[id] == v.value)
            && (m != l ==> !m.arranged)
            && m.seen == l.seen && m.top == l.top && m.right == l.right
  {
  }

  // ---- setCapabilityTierOrder -------------------------------------------------------------------

  /** The j-th id finds room: it is placed already, `in` finds it, or the record is not full by then. */
  predicate Fits(p: Placements, replaced: bool, ids: seq<Id>, j: nat)
    requires j < |ids|
  {
    ids[j] in p || ids[j].Proto? || Shown(replaced, ids, j) || |p| + Added(p, ids, j) < MAX_PLACEMENT_OVERRIDES
  }

  ghost predicate Reached(p: Placements, replaced: bool, ids: seq<Id>, j: nat)
    requires j < |ids|
  {
    forall i: nat :: i <= j ==> Fits(p, replaced, ids, i)
  }

  lemma {:induction false} PlacedElsewhere(p: Placements, replaced: bool, tier: Tier, ids: seq<Id>, rank: nat, id: Id)
    requires id !in ids
    ensures Kept(p, PlaceAll(p, replaced, tier, ids, rank), id)
    decreases |ids|
  {
    if ids != [] && Takes(p, replaced, ids[0]) {
      assert id != ids[0] && id !in ids[1..];
      PlacedElsewhere(Assign(p, ids[0], Placement(tier, rank)), replaced || ids[0].Proto?, tier, ids[1..], rank + 1, id);
    }
  }

  /** Room one position on, after the first id was placed. */
  lemma FitsLater(p: Placements, replaced: bool, ids: seq<Id>, v: Placement, i: nat)
    requires 0 < i < |ids| && Distinct(ids)
    ensures Fits(Assign(p, ids[0], v), replaced || ids[0].Proto?, ids[1..], i - 1) == Fits(p, replaced, ids, i)
  {
    AssignSize(p, ids[0], v);
    ShownLater(replaced, ids, i);
    assert ids[i] != ids[0];
    AddedElsewhere(p, ids[0], v, ids[1..], i - 1);
  }

  lemma ReachedLater(p: Placements, replaced: bool, ids: seq<Id>, v: Placement, j: nat)
    requires 0 < j < |ids| && Distinct(ids)
    ensures Reached(p, replaced, ids, j) <==>
            Fits(p, replaced, ids, 0) && Reached(Assign(p, ids[0], v), replaced || ids[0].Proto?, ids[1..], j - 1)
  {
    var q, later := Assign(p, ids[0], v), replaced || ids[0].Proto?;
    forall i: nat | 0 < i <= j ensures Fits(q, later, ids[1..], i - 1) == Fits(p, replaced, ids, i) {
      FitsLater(p, replaced, ids, v, i);
    }
    if Reached(p, replaced, ids, j) {
      forall i: nat | i <= j - 1 ensures Fits(q, later, ids[1..], i) {
        FitsLater(p, replaced, ids, v, i + 1);
        assert Fits(p, replaced, ids, i + 1);
      }
    }
    if Fits(p, replaced, ids, 0) && Reached(q, later, ids[1..], j - 1) {
      forall i: nat | i <= j ensures Fits(p, replaced, ids, i) {
        if i > 0 {
          assert Fits(q, later, ids[1..], i - 1);
        }
      }
    }
  }

  /** The j-th id of a list gets the tier and its position as rank when every id up to it finds
      room; otherwise it stays as it was. */
  lemma {:induction false} RanksExact(p: Placements, replaced: bool, tier: Tier, ids: seq<Id>, rank: nat, j: nat)
    requires Distinct(ids) && j < |ids|
    ensures var r := PlaceAll(p, replaced, tier, ids, rank);
            if Reached(p, replaced, ids, j) && !ids[j].Proto? then ids[j] in r && r[ids[j]] == Placement(tier, rank + j)
            else Kept(p, r, ids[j])
    decreases |ids|
  {
    var v := Placement(tier, rank);
    var q, later, rest := Assign(p, ids[0], v), replaced || ids[0].Proto?, ids[1..];
    assert Fits(p, replaced, ids, 0) <==> Takes(p, replaced, ids[0]);
    if !Takes(p, replaced, ids[0]) {
      assert !Reached(p, replaced, ids, j);
    } else if j == 0 {
      assert Reached(p, replaced, ids, 0);
      assert ids[0] !in rest;
      PlacedElsewhere(q, later, tier, rest, rank + 1, ids[0]);
    } else {
      ReachedLater(p, replaced, ids, v, j);
      assert rest[j - 1] == ids[j] && ids[j] != ids[0];
      RanksExact(q, later, tier, rest, rank + 1, j - 1);
    }
  }

  /** One complete order: the distinct ids get their positions as ranks, everything else stays;
      the rail named takes the distinct ids dropped on it, the other rail keeps what is left of
      its own, in order, and what the project has seen stays. */
  lemma TierOrderExact(l: Layout, tier: Tier, ids: seq<Id>, zone: Zone, wanted: seq<Id>, other: Id)
    requires Rails(l)
    ensures var m := TierOrder(l, tier, ids, Some((zone, wanted)));
            var (own, away, before) := if zone.Top? then (m.top, m.right, l.right) else (m.right, m.top, l.top);
            && m == TierOrder(l, tier, ids, None).(top := m.top, right := m.right)
            && (other !in ids ==> Kept(l.placements, m.placements, other))
            && own.Some? && InOrder(own.value, wanted)
            && (forall id :: id in wanted ==> id in own.value || |own.value| == MAX_RAIL_ORDER)
            && (away.Some? <==> before.Some?)
            && (before.Some? ==> InOrder(away.value, before.value)
                                 && forall id :: id in away.value <==> id in before.value && id !in own.value)
            && m.seen == l.seen && !m.arranged
  {
    UniqueExact(wanted);
    UniqueExact(ids);
    if other !in ids {
      PlacedElsewhere(l.placements, false, tier, Unique(ids), 0, other);
    }
    var order := Take(Unique(wanted), MAX_RAIL_ORDER);
    if zone.Top? && l.right.Some? {
      OutsideInOrder(l.right.value, order);
    } else if zone.Right? && l.top.Some? {
      OutsideInOrder(l.top.value, order);
    }
  }

  /** ... and the rank each listed id gets: its place among the distinct ids. */
  lemma TierOrderRanks(l: Layout, tier: Tier, ids: seq<Id>, rail: Option<(Zone, seq<Id>)>, j: nat)
    requires j < |Unique(ids)|
    ensures var m, id := TierOrder(l, tier, ids, rail), Unique(ids)[j];
            if Reached(l.placements, false, Unique(ids), j) && !id.Proto? then
              id in m.placements && m.placements[id] == Placement(tier, j)
            else Kept(l.placements, m.placements, id)
  {
    RanksExact(l.placements, false, tier, Unique(ids), 0, j);
  }

  // ---- seeding --------------------------------------------------------------------------------------

  /** A plan lists every id once. */
  ghost predicate IsPlan(plan: seq<(Id, Placement)>) {
    forall i, j :: 0 <= i < j < |plan| ==> plan[i].0 != plan[j].0
  }

  /** How many of the first `j` make an entry. */
  function Entries(plan: seq<(Id, Placement)>, j: nat): nat
    requires j <= |plan|
  {
    if j == 0 then 0 else (if plan[0].0.Proto? then 0 else 1) + Entries(plan[1..], j - 1)
  }

  lemma {:induction false} BoundedElsewhere(plan: seq<(Id, Placement)>, p: Placements, id: Id)
    requires forall i :: 0 <= i < |plan| ==> plan[i].0 != id
    ensures Kept(p, Bounded(plan, p), id)
    decreases |plan|
  {
    if plan != [] && !Full(p) {
      BoundedElsewhere(plan[1..], Assign(p, plan[0].0, plan[0].1), id);
    }
  }

  /** The j-th of a plan is placed as planned when fewer than 128 come before it, and left out
      otherwise. */
  lemma {:induction false} BoundedExact(plan: seq<(Id, Placement)>, p: Placements, j: nat)
    requires IsPlan(plan) && j < |plan| && forall i :: 0 <= i < |plan| ==> plan[i].0 !in p
    ensures var r := Bounded(plan, p);
            if !plan[j].0.Proto? && |p| + Entries(plan, j) < MAX_PLACEMENT_OVERRIDES then
              plan[j].0 in r && r[plan[j].0] == plan[j].1
            else plan[j].0 !in r
    decreases |plan|
  {
    var q, rest := Assign(p, plan[0].0, plan[0].1), plan[1..];
    AssignSize(p, plan[0].0, plan[0].1);
    if Full(p) {
    } else if j == 0 {
      BoundedElsewhere(rest, q, plan[0].0);
    } else {
      assert rest[j - 1] == plan[j];
      BoundedExact(rest, q, j - 1);
    }
  }

  /** Seeding takes place exactly for a record never arranged, or a default one to be replaced,
      and a plan with something to place; it is then marked as the default arrangement. */
  lemma SeedExact(l: Layout, plan: seq<(Id, Placement)>, replace: bool)
    ensures var m := Seed(l, plan, replace);
            if (if l.arranged then replace else l.placements == map[]) && (exists j :: 0 <= j < |plan| && !plan[j].0.Proto?) then
              m == l.(placements := Bounded(plan, map[]), arranged := true)
            else m == l
  {
    PlanPlaces(plan, map[]);
  }

  lemma {:induction false} PlanPlaces(plan: seq<(Id, Placement)>, p: Placements)
    requires |p| < MAX_PLACEMENT_OVERRIDES
    ensures Bounded(plan, p) == p <== forall j :: 0 <= j < |plan| ==> plan[j].0.Proto?
    ensures p == map[] && Bounded(plan, p) == map[] ==> forall j :: 0 <= j < |plan| ==> plan[j].0.Proto?
    decreases |plan|
  {
    if plan != [] {
      if plan[0].0.Proto? {
        PlanPlaces(plan[1..], p);
      } else {
        var q := Assign(p, plan[0].0, plan[0].1);
        BoundedGrows(plan[1..], q);
        assert plan[0].0 in q;
      }
    }
  }

  lemma {:induction false} BoundedGrows(plan: seq<(Id, Placement)>, p: Placements)
    ensures p.Keys <= Bounded(plan, p).Keys
    decreases |plan|
  {
    if plan != [] && !Full(p) {
      BoundedGrows(plan[1..], Assign(p, plan[0].0, plan[0].1));
    }
  }

  // ---- migration ------------------------------------------------------------------------------------

  /** The first arrival that asks for a migration of the id; the length when none does. */
  function Due(seen: set<Id>, arrivals: seq<Arrival>, id: Id): (k: nat)
    ensures k <= |arrivals|
    ensures k < |arrivals| ==> arrivals[k].id == id && id in seen && Legacy(arrivals[k])
    ensures forall i :: 0 <= i < k ==> !(arrivals[i].id == id && id in seen && Legacy(arrivals[i]))
  {
    if arrivals == [] then 0
    else if arrivals[0].id == id && id in seen && Legacy(arrivals[0]) then 0
    else
      var k := Due(seen, arrivals[1..], id);
      assert forall i :: 0 < i < 1 + k ==> arrivals[i] == arrivals[1..][i - 1];
      1 + k
  }

  lemma {:induction false} FullMigratesNothing(p: Placements, seen: set<Id>, arrivals: seq<Arrival>)
    requires Full(p)
    ensures Migrate(p, seen, arrivals) == p
    decreases |arrivals|
  {
    if arrivals != [] {
      FullMigratesNothing(p, seen, arrivals[1..]);
    }
  }

  /** Only a seen id whose default tier moved is pinned, and to the tier it was showing on. */
  lemma {:induction false} PinnedAsShown(p: Placements, seen: set<Id>, arrivals: seq<Arrival>, id: Id)
    requires id !in p && id in Migrate(p, seen, arrivals)
    ensures var k := Due(seen, arrivals, id);
            && k < |arrivals| && id in seen && !id.Inherited? && !id.Proto?
            && arrivals[k].legacyTier.Some? && arrivals[k].legacyTier != arrivals[k].standardTier
            && Migrate(p, seen, arrivals)[id] == Placement(arrivals[k].legacyTier.value, arrivals[k].standardRank)
    decreases |arrivals|
  {
    var c, rest := arrivals[0], arrivals[1..];
    if c.id !in seen || In(p, false, c.id) || !Legacy(c) {
      PinnedAsShown(p, seen, rest, id);
    } else {
      var q := Assign(p, c.id, Placement(c.legacyTier.value, c.standardRank));
      MigrateFacts(q, seen, rest);
      if c.id != id {
        PinnedAsShown(q, seen, rest, id);
      }
    }
  }

  /** Every one of those is pinned; one that is not came when the record was full, after every
      one that is. */
  lemma {:induction false} UnpinnedForRoom(p: Placements, seen: set<Id>, arrivals: seq<Arrival>, id: Id, other: Id)
    requires !id.Inherited? && !id.Proto?
    requires id !in Migrate(p, seen, arrivals) && Due(seen, arrivals, id) < |arrivals|
    ensures var r := Migrate(p, seen, arrivals);
            && Full(r)
            && (other !in p && other in r ==> Due(seen, arrivals, other) < Due(seen, arrivals, id))
    decreases |arrivals|
  {
    var c, rest := arrivals[0], arrivals[1..];
    MigrateFacts(p, seen, arrivals);
    if c.id !in seen || In(p, false, c.id) || !Legacy(c) {
      UnpinnedForRoom(p, seen, rest, id, other);
    } else if !Full(p) {
      var q := Assign(p, c.id, Placement(c.legacyTier.value, c.standardRank));
      MigrateFacts(q, seen, rest);
      UnpinnedForRoom(q, seen, rest, id, other);
    }
  }

  // ---- arrivals -------------------------------------------------------------------------------------

  /** What is marked before the j-th arrival. */
  function Marked(seen: set<Id>, arriving: seq<Arrival>, j: nat): set<Id>
    requires j <= |arriving|
    decreases j
  {
    if j == 0 then seen else Marked(Mark(seen, arriving[0].id), arriving[1..], j - 1)
  }

  /** The j-th arrival is looked at: the marks are not used up by then. */
  predicate Handled(seen: set<Id>, arriving: seq<Arrival>, j: nat) {
    j < |arriving| && |Marked(seen, arriving, j)| < MAX_SEEN_CAPABILITIES
  }

  lemma {:induction false} MarkedGrows(seen: set<Id>, arriving: seq<Arrival>, j: nat)
    requires j <= |arriving|
    ensures |seen| <= |Marked(seen, arriving, j)|
    decreases j
  {
    if j > 0 {
      MarkedGrows(Mark(seen, arriving[0].id), arriving[1..], j - 1);
      assert Mark(seen, arriving[0].id) == seen || |Mark(seen, arriving[0].id)| == |seen| + 1;
    }
  }

  /** The first arrival that brings a placement for the id; the length when none does. */
  function Offer(arriving: seq<Arrival>, id: Id): (k: nat)
    ensures k <= |arriving|
    ensures k < |arriving| ==> arriving[k].id == id && arriving[k].placement.Some?
    ensures forall i :: 0 <= i < k ==> !(arriving[i].id == id && arriving[i].placement.Some?)
  {
    if arriving == [] then 0
    else if arriving[0].id == id && arriving[0].placement.Some? then 0
    else
      var k := Offer(arriving[1..], id);
      assert forall i :: 0 < i < 1 + k ==> arriving[i] == arriving[1..][i - 1];
      1 + k
  }

  /** Exactly the arrivals looked at are marked, "__proto__" apart. */
  lemma {:induction false} MarksExact(k: Known, arriving: seq<Arrival>, place: bool, id: Id)
    ensures id in Arrive(k, arriving, place).seen <==>
            id in k.seen || exists j: nat :: Handled(k.seen, arriving, j) && arriving[j].id == id && !id.Proto?
    decreases |arriving|
  {
    if arriving == [] {
    } else if |k.seen| >= MAX_SEEN_CAPABILITIES {
      forall j: nat | j < |arriving| ensures !Handled(k.seen, arriving, j) {
        MarkedGrows(k.seen, arriving, j);
      }
    } else {
      var c, rest := arriving[0], arriving[1..];
      var seen := Mark(k.seen, c.id);
      var next := if !place || c.placement.None? || In(k.placements, false, c.id) || Full(k.placements) then k.placements
                  else Assign(k.placements, c.id, c.placement.value);
      MarksExact(Known(seen, next), rest, place, id);
      assert Handled(k.seen, arriving, 0);
      if exists j: nat :: Handled(k.seen, arriving, j) && arriving[j].id == id && !id.Proto? {
        var j: nat :| Handled(k.seen, arriving, j) && arriving[j].id == id && !id.Proto?;
        assert j > 0 ==> Handled(seen, rest, j - 1) && rest[j - 1].id == id;
      }
      if exists j: nat :: Handled(seen, rest, j) && rest[j].id == id && !id.Proto? {
        var j: nat :| Handled(seen, rest, j) && rest[j].id == id && !id.Proto?;
        assert Handled(k.seen, arriving, j + 1) && arriving[j + 1].id == id;
      }
    }
  }

  lemma {:induction false} FullPlacesNothing(k: Known, arriving: seq<Arrival>, place: bool)
    requires Full(k.placements) || !place
    ensures Arrive(k, arriving, place).placements == k.placements
    decreases |arriving|
  {
    if arriving != [] && |k.seen| < MAX_SEEN_CAPABILITIES {
      FullPlacesNothing(Known(Mark(k.seen, arriving[0].id), k.placements), arriving[1..], place);
    }
  }

  /** One arrival looked at. */
  function Next(k: Known, c: Arrival, place: bool): (n: Known)
    ensures c.id !in k.placements ==>
              (c.id in n.placements <==> place && c.placement.Some? && !c.id.Inherited? && !c.id.Proto? && !Full(k.placements))
    ensures c.id in n.placements && c.id !in k.placements ==> Some(n.placements[c.id]) == c.placement
    ensures forall id :: id != c.id ==> Kept(k.placements, n.placements, id)
  {
    var seen := Mark(k.seen, c.id);
    if !place || c.placement.None? || In(k.placements, false, c.id) || Full(k.placements) then Known(seen, k.placements)
    else Known(seen, Assign(k.placements, c.id, c.placement.value))
  }

  lemma HandledLater(seen: set<Id>, arriving: seq<Arrival>, j: nat)
    requires arriving != [] && |seen| < MAX_SEEN_CAPABILITIES
    ensures Handled(seen, arriving, 0)
    ensures Handled(seen, arriving, 1 + j) <==> Handled(Mark(seen, arriving[0].id), arriving[1..], j)
  {
  }

  /** What an arrival places is the first placement brought for the id, by one looked at. */
  lemma {:induction false} PlacedAsOffered(k: Known, arriving: seq<Arrival>, place: bool, id: Id)
    requires id !in k.placements && id in Arrive(k, arriving, place).placements
    ensures var r, j := Arrive(k, arriving, place).placements, Offer(arriving, id);
            && place && !id.Inherited? && !id.Proto?
            && Handled(k.seen, arriving, j) && Some(r[id]) == arriving[j].placement
    decreases |arriving|
  {
    var c, rest, next := arriving[0], arriving[1..], Next(k, arriving[0], place);
    assert Arrive(k, arriving, place) == Arrive(next, rest, place);
    HandledLater(k.seen, arriving, Offer(rest, id));
    if id in next.placements {
      ArriveFacts(next, rest, place);
    } else {
      if Full(k.placements) || !place {
        FullPlacesNothing(k, arriving, place);
      }
      PlacedAsOffered(next, rest, place, id);
    }
  }

  /** An arrival looked at that brings a placement and is not placed came when the record was
      full, after every one that is placed. */
  lemma {:induction false} LeftOutForRoom(k: Known, arriving: seq<Arrival>, id: Id, other: Id)
    requires !id.Inherited? && !id.Proto?
    requires id !in Arrive(k, arriving, true).placements && Handled(k.seen, arriving, Offer(arriving, id))
    ensures var r := Arrive(k, arriving, true).placements;
            && Full(r)
            && (other !in k.placements && other in r ==> Offer(arriving, other) < Offer(arriving, id))
    decreases |arriving|
  {
    var c, rest, next := arriving[0], arriving[1..], Next(k, arriving[0], true);
    if |k.seen| >= MAX_SEEN_CAPABILITIES {
      MarkedGrows(k.seen, arriving, Offer(arriving, id));
    } else if Full(k.placements) {
      FullPlacesNothing(k, arriving, true);
    } else {
      assert Arrive(k, arriving, true) == Arrive(next, rest, true);
      ArriveFacts(k, arriving, true);
      ArriveFacts(next, rest, true);
      HandledLater(k.seen, arriving, Offer(rest, id));
      LeftOutForRoom(next, rest, id, other);
    }
  }

  /** What is new keeps the order it came in. */
  lemma {:induction false} FreshInOrder(seen: set<Id>, first: seq<Arrival>, later: seq<Arrival>)
    ensures Fresh(seen, first + later) == Fresh(seen, first) + Fresh(seen, later)
  {
    if first == [] {
      assert first + later == later;
    } else {
      assert (first + later)[1..] == first[1..] + later;
      FreshInOrder(seen, first[1..], later);
    }
  }

  /** What a record of arrivals does, case by case: a record never arranged takes the plan and
      marks all; the first record marks alone; a later one migrates what it has seen, then
      marks and places what it has not. Nothing to record leaves the record as it was. */
  lemma RecordExact(l: Layout, arrivals: seq<Arrival>, plan: Option<seq<(Id, Placement)>>, id: Id)
    ensures var m := Record(l, arrivals, plan);
            && (Seeds(l, plan) && arrivals != [] ==>
                  m.placements == Bounded(plan.value, map[]) && m.arranged && m.seen.Some?
                  && (id in m.seen.value <==> exists j: nat :: Handled({}, arrivals, j) && arrivals[j].id == id && !id.Proto?))
            && (!Seeds(l, plan) && l.seen.None? ==> m.placements == l.placements && m.arranged == l.arranged)
            && (arrivals == [] ==> m == l)
            && m.top == l.top && m.right == l.right
  {
    if Seeds(l, plan) {
      var k := Known({}, Bounded(plan.value, map[]));
      FullPlacesNothing(k, arrivals, false);
      MarksExact(k, arrivals, false, id);
    } else if l.seen.None? {
      FullPlacesNothing(Known({}, l.placements), Fresh({}, arrivals), false);
    }
  }

  /** A later record: an id already seen moves only by migration, and one not seen takes its
      place by arrival from what migration left. */
  lemma LaterRecordExact(l: Layout, arrivals: seq<Arrival>, plan: Option<seq<(Id, Placement)>>, id: Id)
    requires !Seeds(l, plan) && l.seen.Some? && id !in l.placements
    ensures var m, p, news := Record(l, arrivals, plan), Migrate(l.placements, l.seen.value, arrivals), Fresh(l.seen.value, arrivals);
            && (id in l.seen.value ==> Kept(p, m.placements, id))
            && (id !in l.seen.value ==> id !in p && Kept(Arrive(Known(l.seen.value, p), news, true).placements, m.placements, id))
            && m.seen.Some?
            && (id in m.seen.value <==> id in l.seen.value || exists j: nat :: Handled(l.seen.value, news, j) && news[j].id == id && !id.Proto?)
  {
    var seen := l.seen.value;
    var p, news := Migrate(l.placements, seen, arrivals), Fresh(seen, arrivals);
    if id in p {
      PinnedAsShown(l.placements, seen, arrivals, id);
    }
    MarksExact(Known(seen, p), news, true, id);
    if id in seen {
      forall c | c in news ensures c.id != id {
        assert c.id !in seen;
      }
      ArriveElsewhere(Known(seen, p), news, id);
    }
  }

  lemma {:induction false} ArriveElsewhere(k: Known, arriving: seq<Arrival>, id: Id)
    requires forall c :: c in arriving ==> c.id != id
    ensures Kept(k.placements, Arrive(k, arriving, true).placements, id)
    decreases |arriving|
  {
    if arriving != [] && |k.seen| < MAX_SEEN_CAPABILITIES {
      var c, rest := arriving[0], arriving[1..];
      assert c in arriving && forall d :: d in rest ==> d in arriving;
      var seen := Mark(k.seen, c.id);
      if c.placement.None? || In(k.placements, false, c.id) || Full(k.placements) {
        ArriveElsewhere(Known(seen, k.placements), rest, id);
      } else {
        ArriveElsewhere(Known(seen, Assign(k.placements, c.id, c.placement.value)), rest, id);
      }
    }
  }
}
