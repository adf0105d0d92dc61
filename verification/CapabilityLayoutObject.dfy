/**
  The capability layout module as it runs: the module variable `state`, replaced by records
  that loops fill in place. Each method equals an operation of CapabilityLayout.
 */
module CapabilityLayoutObject {
  import opened Prelude
  import opened CapabilityLayout

  class LayoutStore {
    /** The record of the active project. */
    var state: Layout

    constructor (loaded: Layout)
      ensures state == loaded
    {
      state := loaded;
    }

    method SetPlacementOverride(id: Id, placement: Option<Placement>)
      modifies this
      ensures state == Override(old(state), id, placement)
    {
      var placements := state.placements;
      match placement {
        case None => placements := placements - {id};
        case Some(v) =>
          if !(In(placements, false, id) || |placements| < MAX_PLACEMENT_OVERRIDES) {
            return;
          }
          placements := Assign(placements, id, v);
      }
      state := state.(placements := placements, arranged := false);
    }

    method SetCapabilityTierOrder(tier: Tier, ids: seq<Id>, rail: Option<(Zone, seq<Id>)>)
      modifies this
      ensures state == TierOrder(old(state), tier, ids, rail)
    {
      var placements := state.placements;
      var ranked := Unique(ids);
      var rank, replaced := 0, false;
      while rank < |ranked|
        invariant rank <= |ranked|
        invariant PlaceAll(placements, replaced, tier, ranked[rank..], rank) == PlaceAll(state.placements, false, tier, ranked, 0)
      {
        if !In(placements, replaced, ranked[rank]) && |placements| >= MAX_PLACEMENT_OVERRIDES {
          break;
        }
        placements := Assign(placements, ranked[rank], Placement(tier, rank));
        replaced := replaced || ranked[rank].Proto?;
        assert ranked[rank..][1..] == ranked[rank + 1..];
        rank := rank + 1;
      }
      var top, right := state.top, state.right;
      if rail.Some? {
        var order := Take(Unique(rail.value.1), MAX_RAIL_ORDER);
        if rail.value.0.Top? {
          top, right := Some(order), Dropped(right, order);
        } else {
          top, right := Dropped(top, order), Some(order);
        }
      }
      state := Layout(placements, state.seen, false, top, right);
    }

    /** The migration loop. */
    method MigrateLegacy(start: Placements, seen: set<Id>, arrivals: seq<Arrival>) returns (placements: Placements)
      ensures placements == Migrate(start, seen, arrivals)
    {
      placements := start;
      var i := 0;
      while i < |arrivals|
        invariant i <= |arrivals|
        invariant Migrate(placements, seen, arrivals[i..]) == Migrate(start, seen, arrivals)
      {
        var c := arrivals[i];
        assert arrivals[i..][1..] == arrivals[i + 1..];
        i := i + 1;
        if c.id !in seen || In(placements, false, c.id) || !Legacy(c) {
          continue;
        }
        if |placements| >= MAX_PLACEMENT_OVERRIDES {
          return;
        }
        placements := Assign(placements, c.id, Placement(c.legacyTier.value, c.standardRank));
      }
    }

    /** The arrivals loop. */
    method MarkArrivals(start: Known, arriving: seq<Arrival>, place: bool) returns (known: Known)
      ensures known == Arrive(start, arriving, place)
    {
      var seen, placements := start.seen, start.placements;
      var i := 0;
      while i < |arriving|
        invariant i <= |arriving|
        invariant Arrive(Known(seen, placements), arriving[i..], place) == Arrive(start, arriving, place)
      {
        if |seen| >= MAX_SEEN_CAPABILITIES {
          break;
        }
        var c := arriving[i];
        assert arriving[i..][1..] == arriving[i + 1..];
        i := i + 1;
        seen := Mark(seen, c.id);
        if !place || c.placement.None? || In(placements, false, c.id) || |placements| >= MAX_PLACEMENT_OVERRIDES {
          continue;
        }
        placements := Assign(placements, c.id, c.placement.value);
      }
      known := Known(seen, placements);
    }

    /** boundedPlacements. */
    method BoundedPlacements(plan: seq<(Id, Placement)>) returns (next: Placements)
      ensures next == Bounded(plan, map[])
    {
      next := map[];
      var i := 0;
      while i < |plan|
        invariant i <= |plan|
        invariant Bounded(plan[i..], next) == Bounded(plan, map[])
      {
        if |next| >= MAX_PLACEMENT_OVERRIDES {
          break;
        }
        next := Assign(next, plan[i].0, plan[i].1);
        assert plan[i..][1..] == plan[i + 1..];
        i := i + 1;
      }
    }

    method RecordCapabilityArrivals(arrivals: seq<Arrival>, plan: Option<seq<(Id, Placement)>>)
      modifies this
      ensures state == Record(old(state), arrivals, plan)
    {
      var seeded := plan.Some? && NeedsDefault(state);
      var previous := if seeded then None else state.seen;
      var before := match previous case Some(seen) => seen case None => {};
      var placements := state.placements;
      if seeded {
        placements := BoundedPlacements(plan.value);
      } else if previous.Some? {
        placements := MigrateLegacy(placements, before, arrivals);
      }
      var arriving := Fresh(before, arrivals);
      if |arriving| == 0 && (seeded || placements == state.placements) {
        if seeded {
          NothingFresh(arrivals);
        }
        return;
      }
      if seeded {
        NothingSeen(arrivals);
      }
      var known := MarkArrivals(Known(before, placements), arriving, !seeded && previous.Some?);
      state := Layout(known.placements, Some(known.seen), seeded || state.arranged, state.top, state.right);
    }

    method SeedCapabilityLayout(plan: seq<(Id, Placement)>, replace: bool) returns (ok: bool)
      modifies this
      ensures state == Seed(old(state), plan, replace)
    {
      if !NeedsDefault(state) && !(replace && state.arranged) {
        return false;
      }
      var next := BoundedPlacements(plan);
      if |next| == 0 {
        return false;
      }
      state := state.(placements := next, arranged := true);
      return true;
    }
  }

  lemma {:induction false} NothingSeen(arrivals: seq<Arrival>)
    ensures Fresh({}, arrivals) == arrivals
  {
    if arrivals != [] {
      NothingSeen(arrivals[1..]);
    }
  }

  lemma NothingFresh(arrivals: seq<Arrival>)
    requires Fresh({}, arrivals) == []
    ensures arrivals == []
  {
    NothingSeen(arrivals);
  }
}
