/** The play mode object: its fields are the game state, `HandleKey` and
    `Update` change them in place statement by statement, and each is proved
    to produce the state that `Frame.OnKey` and `Frame.Next` describe. */
module Game {
  import opened Geometry
  import opened Collision
  import opened Terrain
  import opened Input
  import opened Frame
  import opened FrameProps

  class PlayMode {
    // input tracking
    var left: Button
    var right: Button
    var down: Button
    var up: Button
    var space: Button

    // the player transform (position and heading) and the cone icon's height
    var position: Vec3
    var rotation: Yaw
    var coneZ: real

    // player state
    var elevated: Elevated
    var jumpTime: real
    var onGround: bool

    // donut1eat .. donut4eat, and whether each donut and frosting is drawn
    var eaten: Counters
    var donutShown: Flags
    var frostingShown: Flags

    /** The value `sqrtf(2.f)` yields, fixed for the object's lifetime. */
    const root2: real

    /** The whole state as one value. */
    function State(): GameState
      reads this
    {
      GameState(left, right, down, up, space, position, rotation, coneZ,
                elevated, jumpTime, onGround, eaten, donutShown, frostingShown)
    }

    ghost predicate Valid()
      reads this
    {
      IsRootOfTwo(root2)
    }

    /** Construction, with the scene lookups done by the caller: the player's
        starting transform and the cone's height come from the scene (the
        heading a rotation about the vertical axis), and every donut and
        frosting drawable is present and drawn. */
    constructor (start: Vec3, heading: Yaw, coneStart: real, sqrtTwo: real)
      requires IsRootOfTwo(sqrtTwo) && heading.IsRotation()
      ensures Valid() && root2 == sqrtTwo
      ensures State() == Initial(start, heading, coneStart)
      ensures Inv(State())
    {
      left, right, down, up, space := Released, Released, Released, Released, Released;
      position, rotation, coneZ := start, heading, coneStart;
      elevated := Elevated(0, 0);
      jumpTime := 0.0;
      onGround := true;
      eaten := [0, 0, 0, 0];
      donutShown, frostingShown := [true, true, true, true], [true, true, true, true];
      root2 := sqrtTwo;
      InitialState(start, heading, coneStart);
    }

    /** The keyboard branches of `handle_event`. */
    method HandleKey(e: KeyEvent) returns (handled: bool)
      modifies this
      ensures handled == Handled(e)
      ensures State() == OnKey(old(State()), e)
      ensures Inv(old(State())) ==> Inv(State())
    {
      ghost var s0 := State();
      if e.KeyDown? {
        handled := PressKey(e.key);
      } else {
        handled := ReleaseKey(e.key);
      }
      if Inv(s0) {
        OnKeyKeepsInv(s0, e);
      }
    }

    /** The `SDL_KEYDOWN` branch: Escape is only acknowledged; each game key
        counts one more press of its button and holds it. */
    method PressKey(k: Key) returns (handled: bool)
      modifies this`left, this`right, this`up, this`down, this`space
      ensures handled == Handled(KeyDown(k))
      ensures State() == OnKey(old(State()), KeyDown(k))
    {
      handled := false;
      if k == KeyEscape {
        handled := true;
      } else if k == KeyA {
        left := left.(downs := (left.downs + 1) % 256, pressed := true);
        handled := true;
      } else if k == KeyD {
        right := right.(downs := (right.downs + 1) % 256, pressed := true);
        handled := true;
      } else if k == KeyW {
        up := up.(downs := (up.downs + 1) % 256, pressed := true);
        handled := true;
      } else if k == KeyS {
        down := down.(downs := (down.downs + 1) % 256, pressed := true);
        handled := true;
      } else if k == KeySpace {
        space := space.(downs := (space.downs + 1) % 256, pressed := true);
        handled := true;
      }
    }

    /** The `SDL_KEYUP` branch: each game key releases its button. */
    method ReleaseKey(k: Key) returns (handled: bool)
      modifies this`left, this`right, this`up, this`down, this`space
      ensures handled == Handled(KeyUp(k))
      ensures State() == OnKey(old(State()), KeyUp(k))
    {
      handled := false;
      if k == KeyA {
        left := left.(pressed := false);
        handled := true;
      } else if k == KeyD {
        right := right.(pressed := false);
        handled := true;
      } else if k == KeyW {
        up := up.(pressed := false);
        handled := true;
      } else if k == KeyS {
        down := down.(pressed := false);
        handled := true;
      } else if k == KeySpace {
        space := space.(pressed := false);
        handled := true;
      }
    }

    /** `consume` for donut `k`: in range of the offsets, hide the donut and
        its frosting and answer true. The handles stay set, so a donut in
        range is consumed again on every call. */
    method Consume(k: nat, dx: real, dy: real) returns (hit: bool)
      requires k < 4
      modifies this`donutShown, this`frostingShown
      ensures hit == InCaptureRange(dx, dy)
      ensures donutShown == if hit then old(donutShown)[k := false] else old(donutShown)
      ensures frostingShown == if hit then old(frostingShown)[k := false] else old(frostingShown)
      ensures State() == old(State()).(donutShown := donutShown, frostingShown := frostingShown)
    {
      hit := false;
      if dx * dx + dy * dy < CaptureRadiusSq {
        donutShown := donutShown[k := false];
        frostingShown := frostingShown[k := false];
        hit := true;
      }
    }

    /** `update(elapsed)`: one frame, in the source's order of blocks. */
    method Update(elapsed: real)
      requires Valid()
      modifies this
      ensures Valid()
      ensures State() == Next(old(State()), elapsed, root2)
      ensures Inv(old(State())) && elapsed >= 0.0 ==>
        Inv(State()) && EatenKept(old(State()), State()) && Remaining(State()) <= Remaining(old(State()))
      ensures InClosed(position, EndBounds)
    {
      ghost var s0 := State();
      Move(elapsed);
      EatDonuts();
      ResetButtons();
      NextStaysInEndBounds(s0, elapsed, root2);
      if Inv(s0) && elapsed >= 0.0 {
        NextKeepsInv(s0, elapsed, root2);
      }
    }

    /** The movement, collision, jump and elevation blocks of `update`. */
    method Move(elapsed: real)
      requires Valid()
      modifies this`position, this`jumpTime, this`onGround, this`coneZ, this`elevated
      ensures State() == Physics(old(State()), elapsed, root2)
    {
      ghost var s0 := State();
      Walk(elapsed);
      KeepInBounds();
      ClipBuildings();
      assert position == Physics(s0, elapsed, root2).position;
      Jump(elapsed);
      LatchElevation();
    }

    /** Horizontal movement: the movement vector turned by the heading and
        scaled by speed and time. */
    method Walk(elapsed: real)
      requires Valid()
      modifies this`position
      ensures position == Moved(old(State()), elapsed, root2)
    {
      var mx, my := MovementVector();
      var d := rotation.Apply((mx, my));
      position := Vec3(position.x + d.0 * elapsed * Speed, position.y + d.1 * elapsed * Speed, position.z);
    }

    /** The movement vector of the held keys, in the player's own axes: each
        held key adds its unit vector, and a two-axis combination is divided
        by the square root of two. */
    method MovementVector() returns (mx: real, my: real)
      requires Valid()
      ensures (mx, my) == MoveVector(left.pressed, right.pressed, up.pressed, down.pressed, root2)
    {
      mx, my := 0.0, 0.0;
      if left.pressed { my := my + 1.0; }
      if right.pressed { my := my - 1.0; }
      if up.pressed { mx := mx + 1.0; }
      if down.pressed { mx := mx - 1.0; }
      if Abs(mx) + Abs(my) > 1.5 {
        mx, my := mx / root2, my / root2;
      }
    }

    /** Pull the player back inside the outer walls, one side at a time. */
    method KeepInBounds()
      modifies this`position
      ensures position == Clamp(old(position))
      ensures InClosed(position, OuterBounds)
    {
      if position.x < -1.0 + Epsilon { position := position.(x := -1.0 + Epsilon); }
      if position.x > 19.0 - Epsilon { position := position.(x := 19.0 - Epsilon); }
      if position.y < -3.0 + Epsilon { position := position.(y := -3.0 + Epsilon); }
      if position.y > 17.0 - Epsilon { position := position.(y := 17.0 - Epsilon); }
    }

    /** Clip against the buildings in order, and against the raised areas
        while the cone shown last frame is below `GateHeight`. */
    method ClipBuildings()
      modifies this`position
      ensures position == Collide(old(position), coneZ)
    {
      ClipFixed();
      if coneZ < GateHeight {
        ClipRaised();
      }
    }

    /** The four buildings that always block, in order. */
    method ClipFixed()
      modifies this`position
      ensures position == ClipAll(old(position), Buildings)
    {
      ghost var target := ClipAll(position, Buildings);
      position := ClipBuilding(position, Buildings[0]);
      assert ClipAll(position, Buildings[1..]) == target;
      position := ClipBuilding(position, Buildings[1]);
      assert ClipAll(position, Buildings[2..]) == target;
      position := ClipBuilding(position, Buildings[2]);
      assert ClipAll(position, Buildings[3..]) == target;
      position := ClipBuilding(position, Buildings[3]);
      assert ClipAll(position, Buildings[4..]) == target;
    }

    /** The six raised areas, in order. */
    method ClipRaised()
      modifies this`position
      ensures position == ClipAll(old(position), GatedBuildings)
    {
      ghost var target := ClipAll(position, GatedBuildings);
      position := ClipBuilding(position, GatedBuildings[0]);
      assert ClipAll(position, GatedBuildings[1..]) == target;
      position := ClipBuilding(position, GatedBuildings[1]);
      assert ClipAll(position, GatedBuildings[2..]) == target;
      position := ClipBuilding(position, GatedBuildings[2]);
      assert ClipAll(position, GatedBuildings[3..]) == target;
      position := ClipBuilding(position, GatedBuildings[3]);
      assert ClipAll(position, GatedBuildings[4..]) == target;
      position := ClipBuilding(position, GatedBuildings[4]);
      assert ClipAll(position, GatedBuildings[5..]) == target;
      position := ClipBuilding(position, GatedBuildings[5]);
      assert ClipAll(position, GatedBuildings[6..]) == target;
    }

    /** Jumping and landing, then the cone shows the resulting height. */
    method Jump(elapsed: real)
      modifies this`jumpTime, this`onGround, this`coneZ
      ensures Vertical(jumpTime, onGround, coneZ)
           == VerticalMotion(space.pressed, old(onGround), old(jumpTime), elevated, elapsed)
    {
      if space.pressed && onGround {
        jumpTime := 1.0;
        onGround := false;
      }
      jumpTime := jumpTime - elapsed;
      var playerHeight := GetHeight(jumpTime, elevated.jumpedFrom);
      if jumpTime < LandingTime && playerHeight < GroundHeight(elevated.current) {
        jumpTime := 0.0;
        playerHeight := GroundHeight(elevated.current);
        onGround := true;
      }
      coneZ := playerHeight;
    }

    /** Update the tier under the player and what the next jump launches from. */
    method LatchElevation()
      modifies this`onGround, this`elevated
      ensures (elevated, onGround) == Latch(old(elevated), old(onGround), position)
    {
      if elevated.current != 0 && GetElevated(position) == 0 { onGround := false; }
      elevated := elevated.(current := GetElevated(position));
      if onGround { elevated := elevated.(jumpedFrom := elevated.current); }
    }

    /** Test the four donuts in order against the player's position. */
    method EatDonuts()
      modifies this`eaten, this`donutShown, this`frostingShown
      ensures State() == ConsumeDonuts(old(State()))
    {
      EatDonut(0);
      EatDonut(1);
      EatDonut(2);
      EatDonut(3);
    }

    /** One line of the donut block: `consume` donut `k` at the offsets from
        its position, and mark it eaten when that succeeds. */
    method EatDonut(k: nat)
      requires k < 4
      modifies this`eaten, this`donutShown, this`frostingShown
      ensures State() == ConsumeDonut(old(State()), k)
    {
      var hit := Consume(k, position.x - DonutCenters[k].0, position.y - DonutCenters[k].1);
      if hit {
        eaten := eaten[k := 1];
      }
    }

    /** Reset every button's press counter; holds are kept. */
    method ResetButtons()
      modifies this`left, this`right, this`up, this`down, this`space
      ensures State() == ClearAllDowns(old(State()))
    {
      left := left.(downs := 0);
      right := right.(downs := 0);
      up := up.(downs := 0);
      down := down.(downs := 0);
      space := space.(downs := 0);
    }
  }
}
