/**
 * The fixed decomposition of a snapshot of the four points O, V, B, A
 * into the six legs that are sent to the routing service: three legs for the
 * OVBA ordering, then three for the OBAB ordering.
 */
module Legs {

  import opened Geometry

  /** One snapshot of the point store: the points in slots O, V, B, A. */
  datatype Quad = Quad(o: Coord, v: Coord, b: Coord, a: Coord)

  /** The snapshot as the store's four slots, in slot order 0..3. */
  function Slots(q: Quad): (s: seq<Coord>)
    ensures |s| == 4
  {
    [q.o, q.v, q.b, q.a]
  }

  /** Reads the store's four slots, in order, as the points O, V, B, A. */
  function FromSlots(s: seq<Coord>): (q: Quad)
    requires |s| == 4
    ensures Slots(q) == s
    ensures q.o == s[0] && q.v == s[1] && q.b == s[2] && q.a == s[3]
  {
    Quad(s[0], s[1], s[2], s[3])
  }

  /** One routing request, from `start` to `end`. */
  datatype Leg = Leg(start: Coord, end: Coord)

  /** The six legs of one pass, in request order: OVBA's three, then OBAB's three. */
  function RoutePairs(q: Quad): seq<Leg>
  {
    [
      // OVBA
      Leg(q.o, q.a), Leg(q.a, q.v), Leg(q.v, q.b),
      // OBAB
      Leg(q.o, q.v), Leg(q.v, q.a), Leg(q.a, q.b)
    ]
  }

  /** The first three legs, whose answers make up the OVBA path. */
  function Ovba(q: Quad): seq<Leg>
  {
    RoutePairs(q)[..3]
  }

  /** The last three legs, whose answers make up the OBAB path. */
  function Obab(q: Quad): seq<Leg>
  {
    RoutePairs(q)[3..]
  }

  /** Stops of the OVBA ordering: O, then A, then V, then B. */
  function OvbaStops(q: Quad): seq<Coord>
  {
    [q.o, q.a, q.v, q.b]
  }

  /** Stops of the OBAB ordering: O, then V, then A, then B. */
  function ObabStops(q: Quad): seq<Coord>
  {
    [q.o, q.v, q.a, q.b]
  }

  lemma MultisetOfFour(w: Coord, x: Coord, y: Coord, z: Coord)
    ensures multiset([w, x, y, z]) == multiset{w, x, y, z}
  {
  }

  lemma SwapLastTwo(w: Coord, x: Coord, y: Coord, z: Coord)
    ensures multiset{w, x, y, z} == multiset{w, x, z, y}
  {
  }

  lemma RotateLastThree(w: Coord, x: Coord, y: Coord, z: Coord)
    ensures multiset{w, x, y, z} == multiset{w, y, z, x}
  {
  }

  /**
   * Both orderings visit each of the four slots once, starting at O and
   * ending at B.
   */
  lemma StopsVisitEachSlotOnce(q: Quad)
    ensures |OvbaStops(q)| == 4 && multiset(OvbaStops(q)) == multiset(Slots(q))
    ensures |ObabStops(q)| == 4 && multiset(ObabStops(q)) == multiset(Slots(q))
    ensures OvbaStops(q)[0] == q.o && OvbaStops(q)[3] == q.b
    ensures ObabStops(q)[0] == q.o && ObabStops(q)[3] == q.b
  {
    MultisetOfFour(q.o, q.v, q.b, q.a);
    MultisetOfFour(q.o, q.a, q.v, q.b);
    MultisetOfFour(q.o, q.v, q.a, q.b);
    RotateLastThree(q.o, q.a, q.v, q.b);
    SwapLastTwo(q.o, q.v, q.a, q.b);
  }

  /** Reference definition: the legs between consecutive stops of a tour. */
  function Tour(path: seq<Coord>): (r: seq<Leg>)
    ensures |r| == if |path| < 2 then 0 else |path| - 1
    ensures forall i :: 0 <= i < |r| ==> r[i] == Leg(path[i], path[i + 1])
  {
    if |path| < 2 then [] else [Leg(path[0], path[1])] + Tour(path[1..])
  }

  /** Consecutive legs meet: each leg ends where the next one starts. */
  predicate Chained(legs: seq<Leg>)
  {
    forall i :: 0 <= i < |legs| - 1 ==> legs[i].end == legs[i + 1].start
  }

  /** A tour of four stops has three legs. */
  lemma TourOfFour(path: seq<Coord>)
    requires |path| == 4
    ensures Tour(path) == [Leg(path[0], path[1]), Leg(path[1], path[2]), Leg(path[2], path[3])]
  {
  }

  lemma TourChained(path: seq<Coord>)
    ensures Chained(Tour(path))
  {
  }

  /**
   * The route pairs are exactly the legs of the two tours O-A-V-B and O-V-A-B,
   * OVBA first; there are six of them, three per ordering.
   */
  lemma RoutePairsAreTours(q: Quad)
    ensures |RoutePairs(q)| == 6 && |Ovba(q)| == 3 && |Obab(q)| == 3
    ensures RoutePairs(q) == Ovba(q) + Obab(q)
    ensures Ovba(q) == Tour(OvbaStops(q))
    ensures Obab(q) == Tour(ObabStops(q))
  {
    var rp := RoutePairs(q);
    assert Ovba(q) == [rp[0], rp[1], rp[2]];
    assert Obab(q) == [rp[3], rp[4], rp[5]];
    TourOfFour(OvbaStops(q));
    TourOfFour(ObabStops(q));
  }

  /**
   * Each ordering is a chain of three legs that starts at O and ends at B,
   * and together the two orderings visit all four points.
   */
  lemma OrderingsChain(q: Quad)
    ensures Chained(Ovba(q)) && Chained(Obab(q))
    ensures Ovba(q)[0].start == q.o && Ovba(q)[2].end == q.b
    ensures Obab(q)[0].start == q.o && Obab(q)[2].end == q.b
    ensures forall p :: p in Slots(q) ==>
      (exists l :: l in Ovba(q) && (l.start == p || l.end == p)) &&
      (exists l :: l in Obab(q) && (l.start == p || l.end == p))
  {
  }

  /**
   * A routing request gives each endpoint latitude first: the same
   * component swap the display applies.
   */
  function RequestPoints(l: Leg): (r: seq<Coord>)
    ensures r == SwapAll([l.start, l.end])
  {
    [Swap(l.start), Swap(l.end)]
  }

  /** Two different legs never produce the same request. */
  lemma RequestDeterminesLeg(l1: Leg, l2: Leg)
    requires RequestPoints(l1) == RequestPoints(l2)
    ensures l1 == l2
  {
  }
}
