/**
 * The pure core of one route update: the six per-leg answers of the routing
 * service are split three and three in request order, each triple's
 * distances are summed and its vertex lists concatenated, and the signed
 * differential `obab - multiplier * ovba` is scaled to kilometres. One failed
 * leg aborts the whole pass.
 */
module Aggregation {

  import opened Wrappers
  import opened Geometry
  import opened Legs

  /** One leg's answer: its vertex list and its distance in metres. */
  datatype RouteResult = RouteResult(coordinates: seq<Coord>, distance: real)

  /** One ordering's aggregate: the concatenated route and the summed distance. */
  datatype PathResult = PathResult(route: seq<Coord>, distance: real)

  /** Everything one successful pass produces. */
  datatype Outcome = Outcome(ovba: PathResult, obab: PathResult, differenceKm: real)

  /** Reference definition: the sum of the distances of a list of answers. */
  function Total(rs: seq<RouteResult>): real
  {
    if rs == [] then 0.0 else rs[0].distance + Total(rs[1..])
  }

  /** Adds the distances to `acc` from the first answer to the last (a left fold). */
  function Reduce(rs: seq<RouteResult>, acc: real): real
  {
    if rs == [] then acc else Reduce(rs[1..], acc + rs[0].distance)
  }

  /** The left fold from `acc` adds the total of the distances to `acc`. */
  lemma {:induction false} ReduceIsTotal(rs: seq<RouteResult>, acc: real)
    ensures Reduce(rs, acc) == acc + Total(rs)
  {
    if rs != [] {
      ReduceIsTotal(rs[1..], acc + rs[0].distance);
    }
  }

  lemma TotalOfTriple(rs: seq<RouteResult>)
    requires |rs| == 3
    ensures Total(rs) == rs[0].distance + rs[1].distance + rs[2].distance
  {
    var tail := rs[1..];
    assert tail[1..] == [rs[2]] && [rs[2]][1..] == [];
    assert Total([rs[2]]) == rs[2].distance;
  }

  /** With no negative leg, the total bounds every leg and is itself non-negative. */
  lemma {:induction false} TotalBoundsEachLeg(rs: seq<RouteResult>)
    requires forall i :: 0 <= i < |rs| ==> rs[i].distance >= 0.0
    ensures Total(rs) >= 0.0
    ensures forall i :: 0 <= i < |rs| ==> rs[i].distance <= Total(rs)
  {
    if rs != [] {
      TotalBoundsEachLeg(rs[1..]);
      forall i | 0 < i < |rs|
        ensures rs[i].distance <= Total(rs)
      {
        assert rs[i] == rs[1..][i - 1];
      }
    }
  }

  /** The vertex list of each answer, in answer order. */
  function Coordinates(rs: seq<RouteResult>): (cs: seq<seq<Coord>>)
    ensures |cs| == |rs|
    ensures forall i :: 0 <= i < |rs| ==> cs[i] == rs[i].coordinates
  {
    seq(|rs|, i requires 0 <= i < |rs| => rs[i].coordinates)
  }

  /** The lists one after the other, nothing removed at the joins. */
  function Flat<T>(ss: seq<seq<T>>): seq<T>
  {
    if ss == [] then [] else ss[0] + Flat(ss[1..])
  }

  /** Sum of the lengths of a list of lists. */
  function TotalLength<T>(ss: seq<seq<T>>): nat
  {
    if ss == [] then 0 else |ss[0]| + TotalLength(ss[1..])
  }

  lemma {:induction false} FlatLength<T>(ss: seq<seq<T>>)
    ensures |Flat(ss)| == TotalLength(ss)
  {
    if ss != [] {
      FlatLength(ss[1..]);
    }
  }

  /**
   * List `k` sits in the flattened list at the offset given by the lengths of
   * the lists before it, vertex for vertex.
   */
  lemma {:induction false} FlatAt<T>(ss: seq<seq<T>>, k: nat, j: nat)
    requires k < |ss| && j < |ss[k]|
    ensures TotalLength(ss[..k]) + j < |Flat(ss)|
    ensures Flat(ss)[TotalLength(ss[..k]) + j] == ss[k][j]
  {
    FlatLength(ss);
    if k == 0 {
      assert ss[..0] == [];
    } else {
      FlatAt(ss[1..], k - 1, j);
      assert ss[..k] == [ss[0]] + ss[1..][..k - 1];
      assert TotalLength(ss[..k]) == |ss[0]| + TotalLength(ss[1..][..k - 1]);
    }
  }

  lemma FlatOfTriple<T>(ss: seq<seq<T>>)
    requires |ss| == 3
    ensures Flat(ss) == ss[0] + ss[1] + ss[2]
  {
    assert ss[1..][1..] == [ss[2]];
    assert Flat([ss[2]]) == ss[2];
  }

  /** The OBAB distance minus the weighted OVBA distance, in kilometres, sign kept. */
  function DifferenceKm(ovbaDistance: real, obabDistance: real, multiplier: real): (d: real)
    ensures d * 1000.0 == obabDistance - multiplier * ovbaDistance
    ensures d == 0.0 <==> obabDistance == multiplier * ovbaDistance
    ensures d > 0.0 <==> obabDistance > multiplier * ovbaDistance
    ensures d < 0.0 <==> obabDistance < multiplier * ovbaDistance
  {
    (obabDistance - multiplier * ovbaDistance) / 1000.0
  }

  /** Distances 1000 (OVBA) and 1200 (OBAB) give +0.2 km at weight 1, -0.8 km at weight 2. */
  lemma DifferenceExamples()
    ensures DifferenceKm(1000.0, 1200.0, 1.0) == 0.2
    ensures DifferenceKm(1000.0, 1200.0, 2.0) == -0.8
  {
  }

  /**
   * Waiting for every answer: the list of answers when every leg answered,
   * nothing as soon as one of them failed.
   */
  function AllOk(results: seq<Option<RouteResult>>): (r: Option<seq<RouteResult>>)
    ensures r.Some? <==> forall i :: 0 <= i < |results| ==> results[i].Some?
    ensures r.Some? ==> |r.value| == |results|
    ensures r.Some? ==> forall i :: 0 <= i < |results| ==> r.value[i] == results[i].value
  {
    if results == [] then Some([])
    else if results[0].None? then None
    else match AllOk(results[1..])
      case None => None
      case Some(rest) => Some([results[0].value] + rest)
  }

  /** The routing service's answer for each leg, in leg order. */
  function FetchAll(oracle: Leg -> Option<RouteResult>, legs: seq<Leg>): seq<Option<RouteResult>>
  {
    seq(|legs|, i requires 0 <= i < |legs| => oracle(legs[i]))
  }

  /** One ordering's path from its three answers. */
  function Path(rs: seq<RouteResult>): (p: PathResult)
    requires |rs| == 3
    ensures p.distance == rs[0].distance + rs[1].distance + rs[2].distance
    ensures p.route == rs[0].coordinates + rs[1].coordinates + rs[2].coordinates
    ensures |p.route| == |rs[0].coordinates| + |rs[1].coordinates| + |rs[2].coordinates|
    ensures (forall i :: 0 <= i < 3 ==> rs[i].distance >= 0.0) ==>
      forall i :: 0 <= i < 3 ==> rs[i].distance <= p.distance
  {
    ReduceIsTotal(rs, 0.0);
    TotalOfTriple(rs);
    FlatOfTriple(Coordinates(rs));
    PathResult(Flat(Coordinates(rs)), Reduce(rs, 0.0))
  }

  /** The six answers, OVBA's three first, OBAB's three last. */
  function Aggregate(rs: seq<RouteResult>, multiplier: real): (out: Outcome)
    requires |rs| == 6
    ensures out.ovba.distance == rs[0].distance + rs[1].distance + rs[2].distance
    ensures out.obab.distance == rs[3].distance + rs[4].distance + rs[5].distance
    ensures out.ovba.route == rs[0].coordinates + rs[1].coordinates + rs[2].coordinates
    ensures out.obab.route == rs[3].coordinates + rs[4].coordinates + rs[5].coordinates
    ensures out.differenceKm == DifferenceKm(out.ovba.distance, out.obab.distance, multiplier)
  {
    var ovba := Path(rs[..3]);
    var obab := Path(rs[3..]);
    Outcome(ovba, obab, DifferenceKm(ovba.distance, obab.distance, multiplier))
  }

  /** One pass over a snapshot: it yields nothing exactly when one of its six legs fails. */
  function ComputeRoutes(q: Quad, oracle: Leg -> Option<RouteResult>, multiplier: real): (r: Option<Outcome>)
    ensures r.None? <==> exists l :: l in RoutePairs(q) && oracle(l).None?
  {
    var legs := RoutePairs(q);
    var fetched := FetchAll(oracle, legs);
    match AllOk(fetched)
    case None =>
      assert exists i :: 0 <= i < 6 && fetched[i].None?;
      None
    case Some(rs) =>
      forall i | 0 <= i < 6
        ensures oracle(legs[i]).Some?
      {
        assert fetched[i].Some?;
      }
      Some(Aggregate(rs, multiplier))
  }

  /**
   * A successful pass builds OVBA from the answers for O-A, A-V, V-B and OBAB
   * from those for O-V, V-A, A-B, and compares them with the signed,
   * weighted difference.
   */
  lemma ComputeRoutesPaths(q: Quad, oracle: Leg -> Option<RouteResult>, multiplier: real)
    returns (oa: RouteResult, av: RouteResult, vb: RouteResult, ov: RouteResult, va: RouteResult, ab: RouteResult)
    requires ComputeRoutes(q, oracle, multiplier).Some?
    ensures oracle(Leg(q.o, q.a)) == Some(oa) && oracle(Leg(q.a, q.v)) == Some(av) && oracle(Leg(q.v, q.b)) == Some(vb)
    ensures oracle(Leg(q.o, q.v)) == Some(ov) && oracle(Leg(q.v, q.a)) == Some(va) && oracle(Leg(q.a, q.b)) == Some(ab)
    ensures
      var ovba := PathResult(oa.coordinates + av.coordinates + vb.coordinates, oa.distance + av.distance + vb.distance);
      var obab := PathResult(ov.coordinates + va.coordinates + ab.coordinates, ov.distance + va.distance + ab.distance);
      ComputeRoutes(q, oracle, multiplier) == Some(Outcome(ovba, obab, DifferenceKm(ovba.distance, obab.distance, multiplier)))
  {
    var rs := PassAnswers(q, oracle, multiplier);
    oa, av, vb, ov, va, ab := rs[0], rs[1], rs[2], rs[3], rs[4], rs[5];
  }

  /** The answers a successful pass aggregates: one per route pair, in order. */
  lemma PassAnswers(q: Quad, oracle: Leg -> Option<RouteResult>, multiplier: real) returns (rs: seq<RouteResult>)
    requires ComputeRoutes(q, oracle, multiplier).Some?
    ensures |rs| == 6
    ensures forall i :: 0 <= i < 6 ==> oracle(RoutePairs(q)[i]) == Some(rs[i])
    ensures ComputeRoutes(q, oracle, multiplier) == Some(Aggregate(rs, multiplier))
  {
    var fetched := FetchAll(oracle, RoutePairs(q));
    rs := AllOk(fetched).value;
  }

  /** A pass depends on nothing but the answers for its own six legs. */
  lemma PassDependsOnlyOnItsLegs(q: Quad, o1: Leg -> Option<RouteResult>, o2: Leg -> Option<RouteResult>, multiplier: real)
    requires forall l :: l in RoutePairs(q) ==> o1(l) == o2(l)
    ensures ComputeRoutes(q, o1, multiplier) == ComputeRoutes(q, o2, multiplier)
  {
    var legs := RoutePairs(q);
    assert FetchAll(o1, legs) == FetchAll(o2, legs);
  }

  /** Three OVBA legs of 500, 700 and 300 metres make 1500 metres. */
  lemma DistanceExample(c: seq<Coord>)
    ensures Path([RouteResult(c, 500.0), RouteResult(c, 700.0), RouteResult(c, 300.0)]).distance == 1500.0
  {
  }

  /** Leg routes (0,0)-(1,1), (1,1)-(2,2), (2,2)-(3,3) join with the shared vertices repeated. */
  lemma GeometryExample()
    ensures
      var p00, p11, p22, p33 := Coord(0.0, 0.0), Coord(1.0, 1.0), Coord(2.0, 2.0), Coord(3.0, 3.0);
      Path([RouteResult([p00, p11], 0.0), RouteResult([p11, p22], 0.0), RouteResult([p22, p33], 0.0)]).route
        == [p00, p11, p11, p22, p22, p33]
  {
  }
}
