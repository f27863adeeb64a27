/**
 * Choosing the points the hook modifier binds to the controller: after the
 * curve's points are deselected, every point of a POLY spline except its first
 * and last is selected, in place.
 */
module Hook {
  import opened Geometry

  datatype SplineKind = Poly | Bezier | Nurbs

  datatype CurvePoint = CurvePoint(co: Point, select: bool)

  datatype Spline = Spline(kind: SplineKind, points: seq<CurvePoint>)

  /** `0 < i < (len(spline.points) - 1)`: not the first point and not the last. */
  predicate Interior(i: int, n: int)
  {
    0 < i < n - 1
  }

  /** The spline with every point deselected (`curve.select_all(action='DESELECT')`). */
  function Deselected(sp: Spline): Spline
  {
    sp.(points := seq(|sp.points|, i requires 0 <= i < |sp.points| => sp.points[i].(select := false)))
  }

  /** The spline once the loop has visited it: interior points of a POLY spline get selected. */
  function WithHookSelection(sp: Spline): Spline
  {
    if sp.kind != Poly then sp
    else sp.(points := seq(|sp.points|, i requires 0 <= i < |sp.points| =>
                             sp.points[i].(select := sp.points[i].select || Interior(i, |sp.points|))))
  }

  /** The number of selected points. */
  function CountSelected(ps: seq<CurvePoint>): nat
  {
    if ps == [] then 0
    else CountSelected(ps[..|ps| - 1]) + (if ps[|ps| - 1].select then 1 else 0)
  }

  /** The data block of the curve object, whose points the loop selects in place. */
  class CurveData {
    var splines: seq<Spline>

    constructor (splines: seq<Spline>)
      ensures this.splines == splines
    {
      this.splines := splines;
    }

    /** `bpy.ops.curve.select_all(action='DESELECT')`. */
    method DeselectAll()
      modifies this
      ensures |splines| == |old(splines)|
      ensures forall s :: 0 <= s < |splines| ==> splines[s] == Deselected(old(splines)[s])
    {
      var before := splines;
      splines := seq(|before|, s requires 0 <= s < |before| => Deselected(before[s]));
    }

    /** The loop over `curve.data.splines` that sets `point.select = True`. */
    method SelectHookPoints()
      modifies this
      ensures |splines| == |old(splines)|
      ensures forall s :: 0 <= s < |splines| ==> splines[s] == WithHookSelection(old(splines)[s])
    {
      var s := 0;
      while s < |splines|
        invariant 0 <= s <= |splines| == |old(splines)|
        invariant forall t :: 0 <= t < s ==> splines[t] == WithHookSelection(old(splines)[t])
        invariant forall t :: s <= t < |splines| ==> splines[t] == old(splines)[t]
      {
        var sp := splines[s];
        if sp.kind == Poly {
          var pts := sp.points;
          var n := |pts|;
          var i := 0;
          while i < n
            invariant 0 <= i <= n == |pts|
            invariant forall j :: 0 <= j < i ==>
              pts[j] == sp.points[j].(select := sp.points[j].select || Interior(j, n))
            invariant forall j :: i <= j < n ==> pts[j] == sp.points[j]
          {
            if 0 < i < n - 1 {
              pts := pts[i := pts[i].(select := true)];
            }
            i := i + 1;
          }
          assert pts == WithHookSelection(sp).points;
          splines := splines[s := sp.(points := pts)];
        }
        s := s + 1;
      }
    }
  }

  /**
   * Deselecting and then running the loop leaves selected exactly the interior points of
   * every POLY spline and nothing else; no point moves.
   */
  lemma HookSelectsInterior(sp: Spline, i: nat)
    requires i < |sp.points|
    ensures |WithHookSelection(Deselected(sp)).points| == |sp.points|
    ensures WithHookSelection(Deselected(sp)).points[i].co == sp.points[i].co
    ensures WithHookSelection(Deselected(sp)).points[i].select <==> sp.kind == Poly && Interior(i, |sp.points|)
  {
  }

  /** Counting, when the points selected are exactly those with index in [lo, hi). */
  lemma {:induction false} CountSelectedRange(ps: seq<CurvePoint>, lo: nat, hi: nat)
    requires lo <= hi <= |ps|
    requires forall i :: 0 <= i < |ps| ==> (ps[i].select <==> lo <= i < hi)
    ensures CountSelected(ps) == hi - lo
  {
    if ps != [] {
      var last := |ps| - 1;
      var front := ps[..last];
      if hi == |ps| && lo <= last {
        CountSelectedRange(front, lo, last);
      } else if hi == |ps| {
        CountSelectedRange(front, last, last);
      } else {
        CountSelectedRange(front, lo, hi);
      }
    }
  }

  /** On a POLY spline of n >= 2 points the hook gets n - 2 of them: all but the two ends. */
  lemma HookSelectionCount(sp: Spline)
    requires sp.kind == Poly && |sp.points| >= 2
    ensures CountSelected(WithHookSelection(Deselected(sp)).points) == |sp.points| - 2
  {
    var ps := WithHookSelection(Deselected(sp)).points;
    CountSelectedRange(ps, 1, |sp.points| - 1);
  }

  /**
   * The converted U curve is the half circle between its two extruded leg tips; the
   * hook then binds the whole half circle to the controller and leaves the two tips free.
   */
  lemma HookBindsArc(sp: Spline, minTip: Point, arc: seq<Point>, maxTip: Point)
    requires sp.kind == Poly
    requires |sp.points| == |arc| + 2
    requires sp.points[0].co == minTip && sp.points[|arc| + 1].co == maxTip
    requires forall k :: 0 <= k < |arc| ==> sp.points[k + 1].co == arc[k]
    ensures var ps := WithHookSelection(Deselected(sp)).points;
      && !ps[0].select && !ps[|arc| + 1].select
      && (forall k :: 0 <= k < |arc| ==> ps[k + 1].select && ps[k + 1].co == arc[k])
      && CountSelected(ps) == |arc|
  {
    HookSelectionCount(sp);
  }
}
