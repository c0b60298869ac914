/**
 * Two-component coordinates. The point store and the routing service hold
 * them as (longitude, latitude); the map display wants (latitude, longitude),
 * so every route handed to the map is swapped component-wise first.
 */
module Geometry {

  datatype Coord = Coord(first: real, second: real)

  /** Exchanges the two components of a coordinate. */
  function Swap(c: Coord): Coord
  {
    Coord(c.second, c.first)
  }

  /** Swaps the components of every vertex of a route, keeping the order. */
  function SwapAll(s: seq<Coord>): (r: seq<Coord>)
    ensures |r| == |s|
    ensures forall i :: 0 <= i < |s| ==> r[i].first == s[i].second && r[i].second == s[i].first
  {
    if s == [] then [] else [Swap(s[0])] + SwapAll(s[1..])
  }

  lemma SwapInvolutive(c: Coord)
    ensures Swap(Swap(c)) == c
  {
  }

  /** Swapping a whole list twice gives the list back. */
  lemma SwapAllInvolutive(s: seq<Coord>)
    ensures SwapAll(SwapAll(s)) == s
  {
  }

  /** Swapping a concatenation is concatenating the swapped parts. */
  lemma SwapAllAppend(s: seq<Coord>, t: seq<Coord>)
    ensures SwapAll(s + t) == SwapAll(s) + SwapAll(t)
  {
  }
}
