/** Building collision: a point strictly inside a rectangle is pushed out to
    the nearest edge (`clip_building`), and a fixed list of rectangles is
    applied one after another. */
module Collision {
  import opened Geometry

  /** The distance from a point to the nearest of the rectangle's four edges. */
  function EdgeDistance(p: Vec3, r: Rect): real {
    Min(Min(p.x - r.xLo, r.xHi - p.x), Min(p.y - r.yLo, r.yHi - p.y))
  }

  /** What clip-out does to a point. Outside the open rectangle nothing
      moves. Inside, every coordinate whose edge is at the nearest distance
      is moved onto that edge; when both x edges are at that distance the
      high edge wins, and likewise for y. The height is never touched. */
  function Clip(p: Vec3, r: Rect): (q: Vec3)
    ensures q.x == p.x || q.x == r.xLo || q.x == r.xHi
    ensures q.y == p.y || q.y == r.yLo || q.y == r.yHi
    ensures q.z == p.z
  {
    if !StrictlyInside(p, r) then p
    else
      var d := EdgeDistance(p, r);
      Vec3(if r.xHi - p.x == d then r.xHi else if p.x - r.xLo == d then r.xLo else p.x,
           if r.yHi - p.y == d then r.yHi else if p.y - r.yLo == d then r.yLo else p.y,
           p.z)
  }

  /** `clip_building`: the position passed by reference is compared with the
      four edge distances in turn, each test that hits overwriting one
      coordinate, so a later hit replaces an earlier one. */
  method ClipBuilding(pos: Vec3, r: Rect) returns (q: Vec3)
    ensures q == Clip(pos, r)
    ensures !StrictlyInside(q, r)
    ensures StrictlyInside(pos, r) ==> OnBoundary(q, r)
    ensures !StrictlyInside(pos, r) ==> q == pos
  {
    q := pos;
    if !(r.xLo < q.x && q.x < r.xHi && r.yLo < q.y && q.y < r.yHi) {
      return;
    }
    var xloDiff, xhiDiff := q.x - r.xLo, r.xHi - q.x;
    var yloDiff, yhiDiff := q.y - r.yLo, r.yHi - q.y;
    var minDiff := Min(Min(xloDiff, xhiDiff), Min(yloDiff, yhiDiff));
    if minDiff == xloDiff { q := q.(x := r.xLo); }
    if minDiff == xhiDiff { q := q.(x := r.xHi); }
    if minDiff == yloDiff { q := q.(y := r.yLo); }
    if minDiff == yhiDiff { q := q.(y := r.yHi); }
    ClipLandsOnBoundary(pos, r);
  }

  /** Outside the open rectangle (on its border included) clip-out is the identity. */
  lemma ClipOutsideIsIdentity(p: Vec3, r: Rect)
    requires !StrictlyInside(p, r)
    ensures Clip(p, r) == p
  {
  }

  /** A point that starts inside ends on the rectangle's border. */
  lemma ClipLandsOnBoundary(p: Vec3, r: Rect)
    requires StrictlyInside(p, r)
    ensures OnBoundary(Clip(p, r), r)
  {
    var d := EdgeDistance(p, r);
    assert d == p.x - r.xLo || d == r.xHi - p.x || d == p.y - r.yLo || d == r.yHi - p.y;
  }

  /** A clipped point is never strictly inside, whatever it started as. */
  lemma ClipLeavesOpenRect(p: Vec3, r: Rect)
    ensures !StrictlyInside(Clip(p, r), r)
  {
    if StrictlyInside(p, r) {
      ClipLandsOnBoundary(p, r);
    }
  }

  /** Which coordinates move, and where to: a coordinate changes only if one
      of its edges is at the nearest distance, and then it becomes that edge,
      the high one on a tie; z never changes. */
  lemma ClipSnapsNearestEdges(p: Vec3, r: Rect)
    requires StrictlyInside(p, r)
    ensures var q, d := Clip(p, r), EdgeDistance(p, r);
      && q.z == p.z
      && (q.x == r.xHi <==> r.xHi - p.x == d)
      && (q.x == r.xLo <==> p.x - r.xLo == d && r.xHi - p.x != d)
      && (q.x != r.xLo && q.x != r.xHi ==> q.x == p.x)
      && (q.y == r.yHi <==> r.yHi - p.y == d)
      && (q.y == r.yLo <==> p.y - r.yLo == d && r.yHi - p.y != d)
      && (q.y != r.yLo && q.y != r.yHi ==> q.y == p.y)
  {
  }

  /** On an exact tie between the two x edges the point ends on `xHi`. */
  lemma ClipTieGoesHigh(p: Vec3, r: Rect)
    requires StrictlyInside(p, r)
    requires p.x - r.xLo == r.xHi - p.x == EdgeDistance(p, r)
    ensures Clip(p, r).x == r.xHi
  {
  }

  /** Clipping twice against the same rectangle is clipping once. */
  lemma ClipIdempotent(p: Vec3, r: Rect)
    ensures Clip(Clip(p, r), r) == Clip(p, r)
  {
    ClipLeavesOpenRect(p, r);
  }

  /** Clip-out against each rectangle of a list in order, each test seeing
      the position the previous ones produced. */
  function ClipAll(p: Vec3, rs: seq<Rect>): (q: Vec3)
    ensures q.z == p.z
    ensures rs != [] ==> !StrictlyInside(q, rs[|rs| - 1])
    decreases |rs|
  {
    if rs == [] then p else ClipAll(Clip(p, rs[0]), rs[1..])
  }

  /** A box `b` that holds the point and every edge of every rectangle of
      the list still holds the point after the whole list is applied, and
      the height is unchanged. */
  lemma {:induction false} ClipAllStaysInBox(p: Vec3, rs: seq<Rect>, b: Rect)
    requires InClosed(p, b)
    requires forall i :: 0 <= i < |rs| ==>
      b.xLo <= rs[i].xLo && rs[i].xHi <= b.xHi && b.yLo <= rs[i].yLo && rs[i].yHi <= b.yHi
    ensures InClosed(ClipAll(p, rs), b) && ClipAll(p, rs).z == p.z
    decreases |rs|
  {
    if rs != [] {
      var q := Clip(p, rs[0]);
      assert InClosed(q, b) && q.z == p.z;
      ClipAllStaysInBox(q, rs[1..], b);
    }
  }
}
