/** The level's two ground tiers: which parts of the map are elevated
    (`get_elevated`), how high each tier stands (`ground_height`) and the
    parabolic height of a jump (`get_height`). */
module Terrain {
  import opened Geometry

  /** `ground_height`: the standing height of a tier. Tier 0 is the low
      ground, tier 1 the elevated ground; each tier is 0.1 higher. */
  function GroundHeight(elev: byte): (h: real)
    ensures h >= 0.2
    ensures elev > 0 ==> h >= 0.3
  {
    elev as real * 0.1 + 0.2
  }

  /** `get_height`: the height of a jump with `airTime` left on its timer,
      launched from tier `jumpedFrom`. */
  function GetHeight(airTime: real, jumpedFrom: byte): (h: real)
    ensures 0.0 <= airTime <= 1.0 ==> h >= GroundHeight(jumpedFrom)
    ensures h <= GroundHeight(jumpedFrom) + 0.25
  {
    var d := airTime - 0.5;
    assert airTime * (1.0 - airTime) == 0.25 - d * d;
    assert 0.0 <= airTime <= 1.0 ==> airTime * (1.0 - airTime) >= 0.0 * (1.0 - airTime);
    airTime * (1.0 - airTime) + GroundHeight(jumpedFrom)
  }

  lemma GroundHeightTiers()
    ensures GroundHeight(0) == 0.2 && GroundHeight(1) == 0.3
    ensures GroundHeight(0) < GroundHeight(1)
  {
  }

  /** The jump parabola starts and ends at the launch tier's ground height,
      is symmetric about 0.5 and peaks there, 0.25 above the launch tier. */
  lemma HeightParabola(t: real, jumpedFrom: byte)
    ensures GetHeight(0.0, jumpedFrom) == GetHeight(1.0, jumpedFrom) == GroundHeight(jumpedFrom)
    ensures GetHeight(0.5, jumpedFrom) == 0.25 + GroundHeight(jumpedFrom)
    ensures GetHeight(t, jumpedFrom) == GetHeight(1.0 - t, jumpedFrom)
    ensures GetHeight(t, jumpedFrom) <= GetHeight(0.5, jumpedFrom)
  {
  }

  /** The jump is above the launch tier's ground exactly while its timer is
      strictly between 0 and 1. */
  lemma HeightAboveLaunchGround(t: real, jumpedFrom: byte)
    ensures GetHeight(t, jumpedFrom) > GroundHeight(jumpedFrom) <==> 0.0 < t < 1.0
  {
  }

  /** An exclusion area of the level: an open box some of whose sides may be
      missing (unbounded in that direction). */
  datatype Zone = Zone(xLo: Bound, xHi: Bound, yLo: Bound, yHi: Bound)
  datatype Bound = Unbounded | At(v: real)

  predicate Above(b: Bound, v: real) { b.Unbounded? || b.v < v }
  predicate Below(b: Bound, v: real) { b.Unbounded? || v < b.v }

  predicate InZone(p: Vec3, z: Zone) {
    Above(z.xLo, p.x) && Below(z.xHi, p.x) && Above(z.yLo, p.y) && Below(z.yHi, p.y)
  }

  /** The low-ground areas of the map, as a list of open boxes. */
  const LowGround: seq<Zone> := [
    Zone(Unbounded, At(0.0), Unbounded, Unbounded),
    Zone(Unbounded, At(6.0), At(6.0), At(8.0)),
    Zone(At(6.0), At(14.0), At(4.0), At(10.0)),
    Zone(At(10.0), At(14.0), Unbounded, At(10.0)),
    Zone(Unbounded, At(14.0), At(-2.0), At(0.0))
  ]

  /** `get_elevated`: 0 inside one of the low-ground areas (tested in turn,
      the first that holds returning early), 1 everywhere else. */
  function GetElevated(p: Vec3): (e: byte)
    ensures e == 0 || e == 1
    ensures p.x < 0.0 ==> e == 0
    ensures p.x >= 14.0 ==> e == 1
    ensures p.x >= 0.0 && p.y >= 10.0 ==> e == 1
  {
    if p.x < 0.0 then 0
    else if p.x < 6.0 && p.y > 6.0 && p.y < 8.0 then 0
    else if p.x > 6.0 && p.x < 14.0 && p.y > 4.0 && p.y < 10.0 then 0
    else if p.x > 10.0 && p.x < 14.0 && p.y < 10.0 then 0
    else if p.x < 14.0 && p.y < 0.0 && p.y > -2.0 then 0
    else 1
  }

  /** The classifier answers 0 exactly when the position lies in some
      low-ground area and 1 otherwise, whatever the order of the tests. */
  lemma ElevatedIffOutsideLowGround(p: Vec3)
    ensures GetElevated(p) == 0 || GetElevated(p) == 1
    ensures GetElevated(p) == 0 <==> exists k :: 0 <= k < |LowGround| && InZone(p, LowGround[k])
  {
    if GetElevated(p) == 0 {
      var k := if p.x < 0.0 then 0
        else if p.x < 6.0 && p.y > 6.0 && p.y < 8.0 then 1
        else if p.x > 6.0 && p.x < 14.0 && p.y > 4.0 && p.y < 10.0 then 2
        else if p.x > 10.0 && p.x < 14.0 && p.y < 10.0 then 3
        else 4;
      assert InZone(p, LowGround[k]);
    } else {
      forall k | 0 <= k < |LowGround| ensures !InZone(p, LowGround[k]) {
      }
    }
  }
}
