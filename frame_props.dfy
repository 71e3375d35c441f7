/** What one frame and one key event promise, and what holds over any run of
    frames and key events. */
module FrameProps {
  import opened Geometry
  import opened Collision
  import opened Terrain
  import opened Input
  import opened Frame

  // ----- invariants of the game state -----

  /** A grounded player has no jump timer running and will launch from the
      tier they stand on. */
  predicate GroundedInv(s: GameState) {
    s.onGround ==> s.jumpTime == 0.0 && s.elevated.jumpedFrom == s.elevated.current
  }

  /** Both tiers are 0 or 1. */
  predicate TiersValid(s: GameState) {
    s.elevated.current <= 1 && s.elevated.jumpedFrom <= 1
  }

  /** Every eaten flag is 0 or 1, and an eaten donut is no longer drawn. */
  predicate DonutsValid(s: GameState) {
    forall k :: 0 <= k < 4 ==>
      (s.eaten[k] == 0 || s.eaten[k] == 1) &&
      (s.eaten[k] == 1 ==> !s.donutShown[k] && !s.frostingShown[k])
  }

  predicate Inv(s: GameState) {
    GroundedInv(s) && TiersValid(s) && DonutsValid(s) && s.rotation.IsRotation()
  }

  /** The count of donuts left, as the overlay shows it. */
  function Remaining(s: GameState): int {
    4 - s.eaten[0] as int - s.eaten[1] as int - s.eaten[2] as int - s.eaten[3] as int
  }

  /** Donuts eaten in `s` are still eaten in `t`. */
  predicate EatenKept(s: GameState, t: GameState) {
    forall k :: 0 <= k < 4 && s.eaten[k] == 1 ==> t.eaten[k] == 1
  }

  /** The state right after construction meets every invariant and has all
      four donuts left. */
  lemma InitialState(start: Vec3, heading: Yaw, coneZ: real)
    requires heading.IsRotation()
    ensures var s := Initial(start, heading, coneZ);
      && Inv(s) && Remaining(s) == 4 && s.onGround && s.jumpTime == 0.0
      && s.elevated == Elevated(0, 0)
      && s.left == s.right == s.up == s.down == s.space == Button(0, false)
  {
  }

  // ----- movement -----

  /** Before turning, the movement vector has squared length 0 when opposite
      keys cancel (or none is held) and 1 otherwise, diagonals included. */
  lemma MoveVectorLength(left: bool, right: bool, up: bool, down: bool, root2: real)
    requires IsRootOfTwo(root2)
    ensures var v := MoveVector(left, right, up, down, root2);
      v.0 * v.0 + v.1 * v.1 == if left == right && up == down then 0.0 else 1.0
  {
    var mx := (if up then 1.0 else 0.0) + (if down then -1.0 else 0.0);
    var my := (if left then 1.0 else 0.0) + (if right then -1.0 else 0.0);
    if Abs(mx) + Abs(my) > 1.5 {
      assert mx * mx == 1.0 && my * my == 1.0;
      var a, b := mx / root2, my / root2;
      assert a * root2 == mx && b * root2 == my;
      assert (a * a) * (root2 * root2) == mx * mx;
      assert (b * b) * (root2 * root2) == my * my;
    }
  }

  /** A rotation about the vertical axis keeps lengths. */
  lemma YawKeepsLength(r: Yaw, v: (real, real))
    requires r.IsRotation()
    ensures var w := r.Apply(v); w.0 * w.0 + w.1 * w.1 == v.0 * v.0 + v.1 * v.1
  {
  }

  /** One frame of walking moves the player by exactly `Speed * elapsed` when
      some direction is held and not at all otherwise: diagonal walking is no
      faster than walking along an axis. */
  lemma StepLength(s: GameState, elapsed: real, root2: real)
    requires IsRootOfTwo(root2) && s.rotation.IsRotation()
    ensures var p, dx, dy := Moved(s, elapsed, root2), Moved(s, elapsed, root2).x - s.position.x,
                            Moved(s, elapsed, root2).y - s.position.y;
      && p.z == s.position.z
      && dx * dx + dy * dy ==
         if s.left.pressed == s.right.pressed && s.up.pressed == s.down.pressed then 0.0
         else (Speed * elapsed) * (Speed * elapsed)
  {
    var v := MoveVector(s.left.pressed, s.right.pressed, s.up.pressed, s.down.pressed, root2);
    MoveVectorLength(s.left.pressed, s.right.pressed, s.up.pressed, s.down.pressed, root2);
    var w := s.rotation.Apply(v);
    YawKeepsLength(s.rotation, v);
    var k := elapsed * Speed;
    assert w.0 * elapsed * Speed == w.0 * k && w.1 * elapsed * Speed == w.1 * k;
    assert (w.0 * k) * (w.0 * k) + (w.1 * k) * (w.1 * k) == (w.0 * w.0 + w.1 * w.1) * (k * k);
  }

  // ----- position bounds -----

  /** After any frame the player is within the outer walls widened by
      `EEpsilon` on the three sides the raised areas reach. */
  lemma NextStaysInEndBounds(s: GameState, elapsed: real, root2: real)
    requires IsRootOfTwo(root2)
    ensures InClosed(Next(s, elapsed, root2).position, EndBounds)
  {
  }

  /** The clamp box is not a bound on where a frame ends: standing on its
      east side at (18.9, 5) with the cone low, the first raised area pushes
      the player onto its own nearest edge, x = 19.01, past the clamp. */
  lemma RaisedAreaLeavesClampBox(s: GameState, root2: real)
    requires IsRootOfTwo(root2)
    requires s.position == Vec3(18.9, 5.0, 0.0) && s.coneZ == 0.2
    ensures Next(s, 0.0, root2).position == Vec3(19.01, 5.0, 0.0)
    ensures !InClosed(Next(s, 0.0, root2).position, OuterBounds)
  {
    var p := s.position;
    assert Moved(s, 0.0, root2) == p;
    assert Clamp(p) == p;
    assert ClipAll(p, Buildings) == p by {
      assert ClipAll(p, Buildings[3..]) == p;
      assert ClipAll(p, Buildings[2..]) == p;
      assert ClipAll(p, Buildings[1..]) == p;
    }
    var q := Vec3(19.01, 5.0, 0.0);
    assert Clip(p, GatedBuildings[0]) == q;
    assert ClipAll(q, GatedBuildings[1..]) == q by {
      assert ClipAll(q, GatedBuildings[5..]) == q;
      assert ClipAll(q, GatedBuildings[4..]) == q;
      assert ClipAll(q, GatedBuildings[3..]) == q;
      assert ClipAll(q, GatedBuildings[2..]) == q;
    }
  }

  /** Pushing into the far corner of the level with no key held: with the
      cone high the clamp holds the player at (18.9, 16.9); with the cone low
      the first raised area then snaps both coordinates to its own corner
      (19.01, 17.01), an exact tie of its x and y edge distances. */
  lemma FarCorner(s: GameState, elapsed: real, root2: real)
    requires IsRootOfTwo(root2)
    requires s.position == Vec3(19.0, 17.0, 0.0)
    requires !s.left.pressed && !s.right.pressed && !s.up.pressed && !s.down.pressed
    ensures s.coneZ >= GateHeight ==> Next(s, elapsed, root2).position == Vec3(18.9, 16.9, 0.0)
    ensures s.coneZ < GateHeight ==> Next(s, elapsed, root2).position == Vec3(19.01, 17.01, 0.0)
  {
    assert Moved(s, elapsed, root2) == s.position;
    var p := Vec3(18.9, 16.9, 0.0);
    assert Clamp(s.position) == p;
    assert ClipAll(p, Buildings) == p by {
      assert ClipAll(p, Buildings[3..]) == p;
      assert ClipAll(p, Buildings[2..]) == p;
      assert ClipAll(p, Buildings[1..]) == p;
    }
    var q := Vec3(19.01, 17.01, 0.0);
    assert Clip(p, GatedBuildings[0]) == q;
    assert ClipAll(q, GatedBuildings[1..]) == q by {
      assert ClipAll(q, GatedBuildings[5..]) == q;
      assert ClipAll(q, GatedBuildings[4..]) == q;
      assert ClipAll(q, GatedBuildings[3..]) == q;
      assert ClipAll(q, GatedBuildings[2..]) == q;
    }
  }

  // ----- jumping and landing -----

  /** A jump starts from the ground when the jump button is held (not merely
      pressed this frame): the timer is set to 1 and runs down by `elapsed`,
      and the player leaves the ground. */
  lemma JumpStarts(s: GameState, elapsed: real, root2: real)
    requires IsRootOfTwo(root2)
    requires s.space.pressed && s.onGround && elapsed <= LandingTime
    ensures Next(s, elapsed, root2).jumpTime == 1.0 - elapsed
    ensures !Next(s, elapsed, root2).onGround
  {
  }

  /** In the air the jump button changes nothing but itself. */
  lemma JumpIgnoredInAir(s: GameState, elapsed: real, root2: real)
    requires IsRootOfTwo(root2)
    requires !s.onGround
    ensures Next(s.(space := s.space.(pressed := true)), elapsed, root2)
         == Next(s.(space := s.space.(pressed := false)), elapsed, root2).(space := Button(0, true))
  {
    var held, free := s.(space := s.space.(pressed := true)), s.(space := s.space.(pressed := false));
    MovedIgnoresJump(free, held.space, elapsed, root2);
    assert VerticalMotion(true, false, s.jumpTime, s.elevated, elapsed)
        == VerticalMotion(false, false, s.jumpTime, s.elevated, elapsed);
    var t := Physics(free, elapsed, root2);
    assert Physics(held, elapsed, root2) == t.(space := held.space);
    ConsumeDonutsIgnoresButtons(t, held.space);
  }

  /** Walking does not read the jump button. */
  lemma MovedIgnoresJump(s: GameState, b: Button, elapsed: real, root2: real)
    requires IsRootOfTwo(root2)
    ensures Moved(s.(space := b), elapsed, root2) == Moved(s, elapsed, root2)
  {
  }

  /** The donut step reads only the position, so it commutes with setting
      the jump button. */
  lemma ConsumeDonutsIgnoresButtons(t: GameState, b: Button)
    ensures ConsumeDonuts(t.(space := b)) == ConsumeDonuts(t).(space := b)
  {
    var t0 := ConsumeDonut(t, 0);
    assert ConsumeDonut(t.(space := b), 0) == t0.(space := b);
    var t1 := ConsumeDonut(t0, 1);
    assert ConsumeDonut(t0.(space := b), 1) == t1.(space := b);
    var t2 := ConsumeDonut(t1, 2);
    assert ConsumeDonut(t1.(space := b), 2) == t2.(space := b);
    assert ConsumeDonut(t2.(space := b), 3) == ConsumeDonut(t2, 3).(space := b);
  }

  /** The whole jump/landing step: with `t` the timer after the countdown,
      the player lands (timer 0, cone at the current tier's ground) exactly
      when `t` is below `LandingTime` and the parabola is under that ground;
      otherwise the timer is `t` and the cone follows the parabola, and the
      player can be on the ground only if they were and did not jump. */
  lemma Landing(s: GameState, elapsed: real, root2: real)
    requires IsRootOfTwo(root2)
    ensures var start := s.space.pressed && s.onGround;
      var t := (if start then 1.0 else s.jumpTime) - elapsed;
      var n := Next(s, elapsed, root2);
      var fell := s.elevated.current != 0 && GetElevated(n.position) == 0;
      if t < LandingTime && GetHeight(t, s.elevated.jumpedFrom) < GroundHeight(s.elevated.current) then
        n.jumpTime == 0.0 && n.coneZ == GroundHeight(s.elevated.current) && (n.onGround <==> !fell)
      else
        n.jumpTime == t && n.coneZ == GetHeight(t, s.elevated.jumpedFrom)
        && (n.onGround <==> s.onGround && !start && !fell)
  {
  }

  /** The elevation latch: the current tier is the one under the new
      position; stepping off the elevated tier leaves the player in the air;
      a grounded player launches from the tier under them, and in the air
      the launch tier is kept. */
  lemma LatchTracksGround(s: GameState, elapsed: real, root2: real)
    requires IsRootOfTwo(root2)
    ensures var n := Next(s, elapsed, root2);
      && n.elevated.current == GetElevated(n.position)
      && (s.elevated.current != 0 && n.elevated.current == 0 ==> !n.onGround)
      && (n.onGround ==> n.elevated.jumpedFrom == n.elevated.current)
      && (!n.onGround ==> n.elevated.jumpedFrom == s.elevated.jumpedFrom)
  {
  }

  /** With time not running backwards, a frame keeps "on the ground implies
      no timer and launch tier = current tier". */
  lemma {:induction false} GroundedInvPreserved(s: GameState, elapsed: real, root2: real)
    requires IsRootOfTwo(root2) && elapsed >= 0.0
    requires GroundedInv(s)
    ensures GroundedInv(Next(s, elapsed, root2))
  {
    var v := VerticalMotion(s.space.pressed, s.onGround, s.jumpTime, s.elevated, elapsed);
    if s.onGround && !s.space.pressed && elapsed > 0.0 {
      // a grounded player's parabola starts below their own ground, so they land again
      assert GetHeight(-elapsed, s.elevated.jumpedFrom) < GroundHeight(s.elevated.current);
    }
    assert v.onGround ==> v.jumpTime == 0.0;
  }

  // ----- donuts -----

  /** Testing donut `j` changes only donut `j`'s flag and drawables, and
      only when the player is in reach of it. */
  lemma ConsumeDonutEffect(s: GameState, j: nat, k: nat)
    requires j < 4 && k < 4
    ensures var n := ConsumeDonut(s, j);
      && n.(eaten := s.eaten, donutShown := s.donutShown, frostingShown := s.frostingShown) == s
      && if k == j && Captured(s.position, k) then n.eaten[k] == 1 && !n.donutShown[k] && !n.frostingShown[k]
         else n.eaten[k] == s.eaten[k] && n.donutShown[k] == s.donutShown[k]
              && n.frostingShown[k] == s.frostingShown[k]
  {
  }

  /** The donut step tests each donut at the same position: one in reach is
      eaten and hidden, one out of reach is left as it was, and nothing but
      the donut fields changes. */
  lemma ConsumeDonutsEffect(s: GameState, k: nat)
    requires k < 4
    ensures var n := ConsumeDonuts(s);
      && n.(eaten := s.eaten, donutShown := s.donutShown, frostingShown := s.frostingShown) == s
      && if Captured(s.position, k) then n.eaten[k] == 1 && !n.donutShown[k] && !n.frostingShown[k]
         else n.eaten[k] == s.eaten[k] && n.donutShown[k] == s.donutShown[k]
              && n.frostingShown[k] == s.frostingShown[k]
  {
    var s0 := ConsumeDonut(s, 0);
    ConsumeDonutEffect(s, 0, k);
    var s1 := ConsumeDonut(s0, 1);
    ConsumeDonutEffect(s0, 1, k);
    var s2 := ConsumeDonut(s1, 2);
    ConsumeDonutEffect(s1, 2, k);
    ConsumeDonutEffect(s2, 3, k);
  }

  /** Donut `k` in reach at the frame's final position is eaten and hidden;
      out of reach its flag and drawables are left as they were. */
  lemma DonutEaten(s: GameState, elapsed: real, root2: real, k: nat)
    requires IsRootOfTwo(root2) && k < 4
    ensures var n := Next(s, elapsed, root2);
      if Captured(n.position, k) then n.eaten[k] == 1 && !n.donutShown[k] && !n.frostingShown[k]
      else n.eaten[k] == s.eaten[k] && n.donutShown[k] == s.donutShown[k]
           && n.frostingShown[k] == s.frostingShown[k]
  {
    ConsumeDonutsEffect(Physics(s, elapsed, root2), k);
  }

  /** Eating is idempotent: in reach of an eaten donut, consuming again
      (which `consume` does, as the donut handles are never cleared) changes
      nothing further. */
  lemma {:induction false} ConsumeIdempotent(s: GameState)
    ensures ConsumeDonuts(ConsumeDonuts(s)) == ConsumeDonuts(s)
  {
    var t := ConsumeDonuts(s);
    assert t.position == s.position;
    var t0 := ConsumeDonut(t, 0);
    assert t0 == t;
    var t1 := ConsumeDonut(t0, 1);
    assert t1 == t;
    var t2 := ConsumeDonut(t1, 2);
    assert t2 == t;
  }

  /** A frame never un-eats a donut, keeps the donut invariant, and the count
      of donuts left stays within 0..4 and never grows. */
  lemma {:induction false} DonutsMonotone(s: GameState, elapsed: real, root2: real)
    requires IsRootOfTwo(root2) && DonutsValid(s)
    ensures var n := Next(s, elapsed, root2);
      && EatenKept(s, n) && DonutsValid(n)
      && 0 <= Remaining(n) <= Remaining(s) <= 4
  {
    var n := Next(s, elapsed, root2);
    forall k | 0 <= k < 4 ensures (n.eaten[k] == s.eaten[k] || n.eaten[k] == 1)
      && (n.eaten[k] == 1 ==> !n.donutShown[k] && !n.frostingShown[k])
    {
      DonutEaten(s, elapsed, root2, k);
    }
  }

  // ----- buttons -----

  /** A frame zeroes every press count and keeps every hold. */
  lemma ButtonsCleared(s: GameState, elapsed: real, root2: real)
    requires IsRootOfTwo(root2)
    ensures var n := Next(s, elapsed, root2);
      && n.left == Button(0, s.left.pressed) && n.right == Button(0, s.right.pressed)
      && n.up == Button(0, s.up.pressed) && n.down == Button(0, s.down.pressed)
      && n.space == Button(0, s.space.pressed)
  {
  }

  /** A key-down of a game key counts one more press of its button (wrapping
      at 256) and holds it; a key-up releases it and keeps its count; every
      other button and all other state are unchanged. Other keys change
      nothing. */
  lemma KeyEventEffect(s: GameState, e: KeyEvent, a: Action)
    ensures ActionOf(e.key) == None ==> OnKey(s, e) == s
    ensures ActionOf(e.key) == Some(a) ==>
      && ButtonOf(OnKey(s, e), a) ==
           (if e.KeyDown? then Button((ButtonOf(s, a).downs + 1) % 256, true)
            else Button(ButtonOf(s, a).downs, false))
      && (forall b :: b != a ==> ButtonOf(OnKey(s, e), b) == ButtonOf(s, b))
      && OnKey(s, e).(left := s.left, right := s.right, up := s.up, down := s.down, space := s.space) == s
  {
  }

  /** Key events touch only buttons, so they keep every invariant. */
  lemma OnKeyKeepsInv(s: GameState, e: KeyEvent)
    requires Inv(s)
    ensures Inv(OnKey(s, e)) && OnKey(s, e).eaten == s.eaten
  {
  }

  // ----- runs -----

  /** One frame of the host loop: the key events queued since the last frame,
      then one update. */
  datatype Tick = Tick(events: seq<KeyEvent>, elapsed: real)

  function ApplyEvents(s: GameState, es: seq<KeyEvent>): GameState
    decreases |es|
  {
    if es == [] then s else ApplyEvents(OnKey(s, es[0]), es[1..])
  }

  function Run(s: GameState, ticks: seq<Tick>, root2: real): GameState
    requires IsRootOfTwo(root2)
    decreases |ticks|
  {
    if ticks == [] then s
    else Run(Next(ApplyEvents(s, ticks[0].events), ticks[0].elapsed, root2), ticks[1..], root2)
  }

  lemma {:induction false} ApplyEventsKeepsInv(s: GameState, es: seq<KeyEvent>)
    requires Inv(s)
    ensures Inv(ApplyEvents(s, es)) && ApplyEvents(s, es).eaten == s.eaten
    decreases |es|
  {
    if es != [] {
      OnKeyKeepsInv(s, es[0]);
      ApplyEventsKeepsInv(OnKey(s, es[0]), es[1..]);
    }
  }

  lemma {:induction false} NextKeepsInv(s: GameState, elapsed: real, root2: real)
    requires IsRootOfTwo(root2) && elapsed >= 0.0 && Inv(s)
    ensures Inv(Next(s, elapsed, root2)) && EatenKept(s, Next(s, elapsed, root2))
    ensures Remaining(Next(s, elapsed, root2)) <= Remaining(s)
  {
    GroundedInvPreserved(s, elapsed, root2);
    DonutsMonotone(s, elapsed, root2);
    LatchTracksGround(s, elapsed, root2);
    ElevatedIffOutsideLowGround(Next(s, elapsed, root2).position);
  }

  /** Over any run whose frames do not go back in time, starting from a state
      that meets the invariants (such as the initial one): the invariants
      hold at the end, no donut is un-eaten, and the count of donuts left
      never grows. */
  lemma {:induction false} RunKeepsInv(s: GameState, ticks: seq<Tick>, root2: real)
    requires IsRootOfTwo(root2) && Inv(s)
    requires forall i :: 0 <= i < |ticks| ==> ticks[i].elapsed >= 0.0
    ensures Inv(Run(s, ticks, root2)) && EatenKept(s, Run(s, ticks, root2))
    ensures 0 <= Remaining(Run(s, ticks, root2)) <= Remaining(s)
    decreases |ticks|
  {
    if ticks != [] {
      var s1 := ApplyEvents(s, ticks[0].events);
      ApplyEventsKeepsInv(s, ticks[0].events);
      var s2 := Next(s1, ticks[0].elapsed, root2);
      NextKeepsInv(s1, ticks[0].elapsed, root2);
      RunKeepsInv(s2, ticks[1..], root2);
    }
  }
}
