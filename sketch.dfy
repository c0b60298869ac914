/**
 * The sketch's mutable state and its event handlers: the store of the four
 * points O, V, B, A that the drag handlers overwrite in place, the
 * multiplier the slider sets, and what the map currently shows. A pass
 * that fails leaves the display as it was.
 */
module Sketch {

  import opened Wrappers
  import opened Geometry
  import opened Legs
  import opened Aggregation

  // The starting positions of O, V, B and A, as (longitude, latitude).
  const InitialO := Coord(4.9202409051856595, 45.725975684822366)
  const InitialV := Coord(4.929023131057543, 45.72367082873087)
  const InitialB := Coord(4.924762893150509, 45.71147464744061)
  const InitialA := Coord(4.951393097711732, 45.71265438584955)

  /** The four points O, V, B, A, in slots 0..3, overwritten one at a time. */
  class PointStore {
    var points: array<Coord>

    ghost predicate Valid()
      reads this
    {
      points.Length == 4
    }

    constructor ()
      ensures Valid() && fresh(points)
      ensures points[..] == [InitialO, InitialV, InitialB, InitialA]
    {
      points := new Coord[4] [InitialO, InitialV, InitialB, InitialA];
    }

    /** Replaces the point in slot `index`; the other slots keep theirs. */
    method Set(index: nat, p: Coord)
      requires Valid() && index < 4
      modifies points
      ensures Valid()
      ensures points[..] == old(points[..])[index := p]
      ensures points[index] == p
      ensures forall j :: 0 <= j < 4 && j != index ==> points[j] == old(points[j])
    {
      points[index] := p;
    }

    /** A copy of all four slots, taken at one instant. */
    method Snapshot() returns (q: Quad)
      requires Valid()
      ensures Slots(q) == points[..]
    {
      q := Quad(points[0], points[1], points[2], points[3]);
    }
  }

  /** What the two polylines and the three distance labels show. */
  datatype Shown = Shown(
    ovbaLatLngs: seq<Coord>,
    obabLatLngs: seq<Coord>,
    ovbaKm: real,
    obabKm: real,
    differenceKm: real)

  /** The display of a successful pass: routes swapped to (lat, lng), distances in km. */
  function Render(out: Outcome): (s: Shown)
    ensures SwapAll(s.ovbaLatLngs) == out.ovba.route && |s.ovbaLatLngs| == |out.ovba.route|
    ensures SwapAll(s.obabLatLngs) == out.obab.route && |s.obabLatLngs| == |out.obab.route|
    ensures s.ovbaKm * 1000.0 == out.ovba.distance && s.obabKm * 1000.0 == out.obab.distance
    ensures s.differenceKm == out.differenceKm
  {
    SwapAllInvolutive(out.ovba.route);
    SwapAllInvolutive(out.obab.route);
    Shown(SwapAll(out.ovba.route), SwapAll(out.obab.route),
      out.ovba.distance / 1000.0, out.obab.distance / 1000.0, out.differenceKm)
  }

  /** The display after a pass with outcome `out`, given the display before it. */
  function Shows(out: Option<Outcome>, before: Option<Shown>): (after: Option<Shown>)
    ensures out.None? ==> after == before
    ensures out.Some? ==> after.Some?
    ensures out.Some? ==> SwapAll(after.value.ovbaLatLngs) == out.value.ovba.route
    ensures out.Some? ==> SwapAll(after.value.obabLatLngs) == out.value.obab.route
    ensures out.Some? ==> after.value.ovbaKm * 1000.0 == out.value.ovba.distance
    ensures out.Some? ==> after.value.obabKm * 1000.0 == out.value.obab.distance
    ensures out.Some? ==> after.value.differenceKm == out.value.differenceKm
  {
    match out
    case None => before
    case Some(o) => Some(Render(o))
  }

  /** Fail-closed: a single failed leg leaves routes, distances and difference as they were shown. */
  lemma FailedLegKeepsDisplay(q: Quad, oracle: Leg -> Option<RouteResult>, multiplier: real, before: Option<Shown>, l: Leg)
    requires l in RoutePairs(q) && oracle(l).None?
    ensures ComputeRoutes(q, oracle, multiplier).None?
    ensures Shows(ComputeRoutes(q, oracle, multiplier), before) == before
  {
  }

  /** The weight of the OVBA distance and what the map and its labels show. */
  class RouteView {
    var multiplier: real
    /** None until the first pass succeeds: no route line has been drawn yet. */
    var shown: Option<Shown>

    constructor ()
      ensures multiplier == 1.0 && shown == None
    {
      multiplier := 1.0;
      shown := None;
    }

    /** One pass over a snapshot of the store; a failed pass changes nothing. */
    method UpdateRoutes(store: PointStore, oracle: Leg -> Option<RouteResult>)
      requires store.Valid()
      modifies this`shown
      ensures shown == Shows(ComputeRoutes(FromSlots(store.points[..]), oracle, multiplier), old(shown))
      ensures ComputeRoutes(FromSlots(store.points[..]), oracle, multiplier).None? ==> shown == old(shown)
    {
      var q := store.Snapshot();
      var out := ComputeRoutes(q, oracle, multiplier);
      if out.Some? {
        shown := Some(Render(out.value));
      }
    }

    /** The slider handler: set the multiplier, then recompute. */
    method SetMultiplier(m: real, store: PointStore, oracle: Leg -> Option<RouteResult>)
      requires store.Valid()
      modifies this
      ensures multiplier == m
      ensures shown == Shows(ComputeRoutes(FromSlots(store.points[..]), oracle, m), old(shown))
    {
      multiplier := m;
      UpdateRoutes(store, oracle);
    }
  }

  /**
   * A drag of one marker, while moving or at its end: overwrite the dragged point, then
   * recompute from the new snapshot.
   */
  method OnDrag(store: PointStore, view: RouteView, index: nat, p: Coord, oracle: Leg -> Option<RouteResult>)
    requires store.Valid() && index < 4
    modifies store.points, view`shown
    ensures store.Valid()
    ensures store.points[..] == old(store.points[..])[index := p]
    ensures view.multiplier == old(view.multiplier)
    ensures view.shown == Shows(ComputeRoutes(FromSlots(store.points[..]), oracle, view.multiplier), old(view.shown))
  {
    store.Set(index, p);
    view.UpdateRoutes(store, oracle);
  }
}
