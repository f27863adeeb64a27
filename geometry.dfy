/**
 * The U-shaped guide curve, in the circle object's local coordinates: drop the
 * half of the circle below y = 0, take the vertices of least and greatest x as
 * the free ends, and extrude each by (length - pi * radius) / 2 along -y.
 */
module Geometry {
  import opened Wrappers

  datatype Point = Point(x: real, y: real, z: real)

  type PosReal = r: real | r > 0.0 witness 1.0

  /** Python's `math.pi`, kept abstract: only its positivity is used. */
  const Pi: PosReal

  /** `arc_length = math.pi * radius`: the length of the half circle. */
  function ArcLength(radius: real): real
  {
    Pi * radius
  }

  /**
   * `extrudeAmount = (length - arcLength) / 2`: the length of each straight leg.
   * The two legs and the half circle add up to the requested length, and the legs
   * are proper (positive) once the length check has passed.
   */
  function ExtrudeAmount(radius: real, length: real): (e: real)
    ensures ArcLength(radius) + 2.0 * e == length
    ensures length > ArcLength(radius) <==> e > 0.0
  {
    (length - ArcLength(radius)) / 2.0
  }

  /** The comprehension `[v for v in bm.verts if v.co.y < 0]` and the delete: what is kept, in order. */
  function UpperHalf(verts: seq<Point>): (r: seq<Point>)
    ensures |r| <= |verts|
    ensures forall p :: p in r <==> p in verts && p.y >= 0.0
    ensures forall p :: multiset(r)[p] == if p.y >= 0.0 then multiset(verts)[p] else 0
  {
    if verts == [] then []
    else
      assert verts == [verts[0]] + verts[1..];
      (if verts[0].y < 0.0 then [] else [verts[0]]) + UpperHalf(verts[1..])
  }

  /** Filtering a concatenation filters each part and keeps them in their order. */
  lemma {:induction false} UpperHalfAppend(a: seq<Point>, b: seq<Point>)
    ensures UpperHalf(a + b) == UpperHalf(a) + UpperHalf(b)
  {
    if a == [] {
      assert a + b == b;
    } else {
      assert (a + b)[1..] == a[1..] + b;
      UpperHalfAppend(a[1..], b);
    }
  }

  /** The kept vertices stay in the order of `bm.verts`: filtering a prefix gives a prefix. */
  lemma UpperHalfPrefix(verts: seq<Point>, k: nat)
    requires k <= |verts|
    ensures UpperHalf(verts[..k]) <= UpperHalf(verts)
  {
    assert verts == verts[..k] + verts[k..];
    UpperHalfAppend(verts[..k], verts[k..]);
  }

  /** `min(bm.verts, key=lambda v: v.co.x)`: the first vertex of least x. */
  function FirstMinX(vs: seq<Point>): (k: nat)
    requires |vs| > 0
    ensures k < |vs|
    ensures forall j :: 0 <= j < |vs| ==> vs[k].x <= vs[j].x
    ensures forall j :: 0 <= j < k ==> vs[j].x > vs[k].x
  {
    if |vs| == 1 then 0
    else
      var k := FirstMinX(vs[..|vs| - 1]);
      if vs[|vs| - 1].x < vs[k].x then |vs| - 1 else k
  }

  /** `max(bm.verts, key=lambda v: v.co.x)`: the first vertex of greatest x. */
  function FirstMaxX(vs: seq<Point>): (k: nat)
    requires |vs| > 0
    ensures k < |vs|
    ensures forall j :: 0 <= j < |vs| ==> vs[k].x >= vs[j].x
    ensures forall j :: 0 <= j < k ==> vs[j].x < vs[k].x
  {
    if |vs| == 1 then 0
    else
      var k := FirstMaxX(vs[..|vs| - 1]);
      if vs[|vs| - 1].x > vs[k].x then |vs| - 1 else k
  }

  /**
   * The two free ends of what is left of the circle, or None where Python's `min`
   * raises ValueError because no vertex is left.
   */
  function SelectEnds(vs: seq<Point>): (r: Option<(nat, nat)>)
    ensures r.None? <==> vs == []
    ensures r.Some? ==> r.value.0 < |vs| && r.value.1 < |vs|
    ensures r.Some? ==> forall j :: 0 <= j < |vs| ==> vs[r.value.0].x <= vs[j].x <= vs[r.value.1].x
  {
    if vs == [] then None else Some((FirstMinX(vs), FirstMaxX(vs)))
  }

  /** `extrude_vertices_move` by (0, -e, 0): the new vertex at the end of a leg. */
  function Extruded(v: Point, e: real): Point
  {
    Point(v.x, v.y - e, v.z)
  }

  /** The half circle, its two free ends (indices into `arc`) and the two extruded leg tips. */
  datatype UShape = UShape(arc: seq<Point>, minEnd: nat, maxEnd: nat, minTip: Point, maxTip: Point)

  /** Steps 2 to 4 of the curve generator, from the vertices of the circle primitive. */
  function BuildUShape(circle: seq<Point>, radius: real, length: real): (r: Option<UShape>)
    ensures r.None? <==> UpperHalf(circle) == []
    ensures r.Some? ==>
      var u := r.value;
      && u.arc == UpperHalf(circle)
      && u.minEnd < |u.arc| && u.maxEnd < |u.arc|
      && (forall j :: 0 <= j < |u.arc| ==> u.arc[u.minEnd].x <= u.arc[j].x <= u.arc[u.maxEnd].x)
      && u.minTip == Extruded(u.arc[u.minEnd], ExtrudeAmount(radius, length))
      && u.maxTip == Extruded(u.arc[u.maxEnd], ExtrudeAmount(radius, length))
  {
    var arc := UpperHalf(circle);
    match SelectEnds(arc)
    case None => None
    case Some(ends) =>
      var e := ExtrudeAmount(radius, length);
      Some(UShape(arc, ends.0, ends.1, Extruded(arc[ends.0], e), Extruded(arc[ends.1], e)))
  }

  /**
   * Once the length check has passed, each leg tip lies strictly below its end on the
   * y axis, directly under it, and the half circle plus the two legs is `length` long.
   */
  lemma LegsOfUShape(circle: seq<Point>, radius: real, length: real)
    requires length > ArcLength(radius)
    requires BuildUShape(circle, radius, length).Some?
    ensures var u := BuildUShape(circle, radius, length).value;
      var e := u.arc[u.minEnd].y - u.minTip.y;
      && e > 0.0
      && u.arc[u.maxEnd].y - u.maxTip.y == e
      && u.minTip.x == u.arc[u.minEnd].x && u.minTip.z == u.arc[u.minEnd].z
      && u.maxTip.x == u.arc[u.maxEnd].x && u.maxTip.z == u.arc[u.maxEnd].z
      && ArcLength(radius) + 2.0 * e == length
      && u.arc[u.minEnd].y >= 0.0 && u.arc[u.maxEnd].y >= 0.0
  {
    var u := BuildUShape(circle, radius, length).value;
    assert u.arc[u.minEnd] in u.arc && u.arc[u.maxEnd] in u.arc;
  }
}
