/** The game state the play mode keeps between frames, and the two things
    that change it: one key event (`handle_event`) and one frame of
    simulation (`update`), each given here as a function from the old state
    to the new one. */
module Frame {
  import opened Geometry
  import opened Collision
  import opened Terrain
  import opened Input

  /** Four flags or counters, one per donut (donut1 .. donut4 at 0 .. 3). */
  type Flags = s: seq<bool> | |s| == 4 witness [true, true, true, true]
  type Counters = s: seq<byte> | |s| == 4 witness [0, 0, 0, 0]

  /** The tier the player stands on now, and the tier the last jump left from. */
  datatype Elevated = Elevated(current: byte, jumpedFrom: byte)

  /** The player's heading: a rotation about the vertical axis, given by the
      cosine and sine of its angle. Mouse motion only ever turns the player
      about that axis. */
  datatype Yaw = Yaw(c: real, s: real) {
    predicate IsRotation() {
      c * c + s * s == 1.0
    }

    /** The heading applied to a vector of the ground plane. */
    function Apply(v: (real, real)): (real, real) {
      (c * v.0 - s * v.1, s * v.0 + c * v.1)
    }
  }

  /** Everything the per-frame logic reads or writes. The drawables of the
      donuts and their frostings are reduced to whether they are still shown
      (their vertex array is not yet 0); the cone icon to its height. */
  datatype GameState = GameState(
    left: Button, right: Button, down: Button, up: Button, space: Button,
    position: Vec3, rotation: Yaw, coneZ: real,
    elevated: Elevated, jumpTime: real, onGround: bool,
    eaten: Counters, donutShown: Flags, frostingShown: Flags)

  const Epsilon: real := 0.1
  const EEpsilon: real := 0.01
  /** Horizontal speed, in world units per second. */
  const Speed: real := 2.0
  /** The restricted rooftops block the player while the cone is below this. */
  const GateHeight: real := 0.3
  /** A jump can only land once its timer is below this. */
  const LandingTime: real := 0.5
  /** A donut is eaten when the squared distance to it is below this. */
  const CaptureRadiusSq: real := 0.04

  /** What `sqrtf(2.f)` returns, as a real. */
  predicate IsRootOfTwo(r: real) {
    r > 0.0 && r * r == 2.0
  }

  /** The level's outer walls, moved inwards by `Epsilon`. */
  const OuterBounds: Rect := Rect(-1.0 + Epsilon, 19.0 - Epsilon, -3.0 + Epsilon, 17.0 - Epsilon)

  /** Buildings that always block, in the order they are tested. */
  const Buildings: seq<Rect> := [
    Rect(1.0 - Epsilon, 5.0 + Epsilon, 1.0 - Epsilon, 3.0 + Epsilon),
    Rect(3.0 - Epsilon, 7.0 + Epsilon, 11.0 - Epsilon, 15.0 + Epsilon),
    Rect(9.0 - Epsilon, 11.0 + Epsilon, 11.0 - Epsilon, 15.0 + Epsilon),
    Rect(9.0 - Epsilon, 13.0 + Epsilon, 11.0 - Epsilon, 13.0 + Epsilon)
  ]

  /** The raised areas, which block only while the cone is low, in order. */
  const GatedBuildings: seq<Rect> := [
    Rect(14.0 - EEpsilon, 19.0 + EEpsilon, -3.0 - EEpsilon, 17.0 + EEpsilon),
    Rect(0.0 - EEpsilon, 19.0 + EEpsilon, 10.0 - EEpsilon, 17.0 + EEpsilon),
    Rect(0.0 - EEpsilon, 6.0 + EEpsilon, 8.0 - EEpsilon, 17.0 + EEpsilon),
    Rect(0.0 - EEpsilon, 10.0 + EEpsilon, -3.0 - EEpsilon, -2.0 + EEpsilon),
    Rect(0.0 - EEpsilon, 10.0 + EEpsilon, 0.0 - EEpsilon, 4.0 + EEpsilon),
    Rect(0.0 - EEpsilon, 6.0 + EEpsilon, 0.0 - EEpsilon, 6.0 + EEpsilon)
  ]

  /** Where the four donuts stand (x, y). */
  const DonutCenters: seq<(real, real)> := [(12.0, 14.0), (17.0, 7.4477), (8.0, 13.0), (2.0, -0.5)]

  /** The state right after construction, given what the scene supplies: the
      player's position and heading and the cone's height. All buttons are
      released, the player stands on the low tier with no jump running, no
      donut is eaten and every donut is shown. */
  function Initial(start: Vec3, heading: Yaw, coneZ: real): GameState {
    GameState(Released, Released, Released, Released, Released,
              start, heading, coneZ,
              Elevated(0, 0), 0.0, true,
              [0, 0, 0, 0], [true, true, true, true], [true, true, true, true])
  }

  // ----- one frame of `update`, step by step -----

  /** The movement vector in the player's own axes: W and S along x, A and D
      along y, opposite keys cancelling, and a two-axis combination divided
      by the square root of two. */
  function MoveVector(left: bool, right: bool, up: bool, down: bool, root2: real): (v: (real, real))
    requires IsRootOfTwo(root2)
    ensures left == right ==> v.1 == 0.0
    ensures up == down ==> v.0 == 0.0
    ensures left && !right ==> v.1 > 0.0
    ensures right && !left ==> v.1 < 0.0
    ensures up && !down ==> v.0 > 0.0
    ensures down && !up ==> v.0 < 0.0
  {
    var mx := (if up then 1.0 else 0.0) + (if down then -1.0 else 0.0);
    var my := (if left then 1.0 else 0.0) + (if right then -1.0 else 0.0);
    if Abs(mx) + Abs(my) > 1.5 then (mx / root2, my / root2) else (mx, my)
  }

  /** The position after walking for `elapsed` seconds along the turned
      movement vector. */
  function Moved(s: GameState, elapsed: real, root2: real): Vec3
    requires IsRootOfTwo(root2)
  {
    var d := s.rotation.Apply(MoveVector(s.left.pressed, s.right.pressed, s.up.pressed, s.down.pressed, root2));
    Vec3(s.position.x + d.0 * elapsed * Speed, s.position.y + d.1 * elapsed * Speed, s.position.z)
  }

  /** The position pulled back inside the outer walls, one side at a time. */
  function Clamp(p: Vec3): (q: Vec3)
    ensures InClosed(q, OuterBounds) && q.z == p.z
    ensures InClosed(p, OuterBounds) ==> q == p
    ensures p.x < OuterBounds.xLo ==> q.x == OuterBounds.xLo
    ensures p.x > OuterBounds.xHi ==> q.x == OuterBounds.xHi
    ensures p.y < OuterBounds.yLo ==> q.y == OuterBounds.yLo
    ensures p.y > OuterBounds.yHi ==> q.y == OuterBounds.yHi
  {
    var x := if p.x < OuterBounds.xLo then OuterBounds.xLo else p.x;
    var x' := if x > OuterBounds.xHi then OuterBounds.xHi else x;
    var y := if p.y < OuterBounds.yLo then OuterBounds.yLo else p.y;
    var y' := if y > OuterBounds.yHi then OuterBounds.yHi else y;
    Vec3(x', y', p.z)
  }

  /** The box the player can end a frame in: the clamp box, widened by the
      raised areas, whose edges lie `EEpsilon` beyond the outer walls. */
  const EndBounds: Rect := Rect(-1.0 + Epsilon, 19.0 + EEpsilon, -3.0 - EEpsilon, 17.0 + EEpsilon)

  /** Building collision: the fixed buildings in order, then, only while the
      cone shown last frame is below `GateHeight`, the raised areas. From the
      clamp box it never leaves `EndBounds`, and it never changes the height. */
  function Collide(p: Vec3, coneZ: real): (r: Vec3)
    ensures r.z == p.z
    ensures InClosed(p, OuterBounds) ==> InClosed(r, EndBounds)
  {
    var q := ClipAll(p, Buildings);
    assert InClosed(p, OuterBounds) ==> InClosed(q, EndBounds) by {
      if InClosed(p, OuterBounds) {
        ClipAllStaysInBox(p, Buildings, EndBounds);
      }
    }
    assert InClosed(q, EndBounds) ==> InClosed(ClipAll(q, GatedBuildings), EndBounds) by {
      if InClosed(q, EndBounds) {
        ClipAllStaysInBox(q, GatedBuildings, EndBounds);
      }
    }
    if coneZ < GateHeight then ClipAll(q, GatedBuildings) else q
  }

  /** The outcome of the jump logic: the new timer, whether the player is on
      the ground, and the height written to the cone. */
  datatype Vertical = Vertical(jumpTime: real, onGround: bool, height: real)

  /** The jump state machine for one frame: a held jump button starts a jump
      from the ground; the timer runs down by `elapsed`; once below
      `LandingTime` with the parabola under the current tier's ground, the
      player lands on it. */
  function VerticalMotion(jumpHeld: bool, onGround: bool, jumpTime: real, el: Elevated, elapsed: real): (v: Vertical)
    ensures (v.jumpTime == 0.0 && v.onGround && v.height == GroundHeight(el.current))
         || v.height == GetHeight(v.jumpTime, el.jumpedFrom)
    ensures !(v.jumpTime < LandingTime && v.height < GroundHeight(el.current))
    ensures v.onGround ==> (onGround && !jumpHeld) || v.jumpTime == 0.0
  {
    var start := jumpHeld && onGround;
    var t := (if start then 1.0 else jumpTime) - elapsed;
    var g := if start then false else onGround;
    var h := GetHeight(t, el.jumpedFrom);
    if t < LandingTime && h < GroundHeight(el.current) then Vertical(0.0, true, GroundHeight(el.current))
    else Vertical(t, g, h)
  }

  /** The elevation latch: walking off the elevated tier drops the player
      into the air; the current tier follows the position; a grounded player
      launches the next jump from the tier under them. */
  function Latch(el: Elevated, onGround: bool, p: Vec3): (r: (Elevated, bool))
    ensures r.0.current == GetElevated(p)
    ensures r.1 ==> onGround && r.0.jumpedFrom == r.0.current
    ensures !r.1 ==> r.0.jumpedFrom == el.jumpedFrom
  {
    var here := GetElevated(p);
    var g := if el.current != 0 && here == 0 then false else onGround;
    (Elevated(here, if g then here else el.jumpedFrom), g)
  }

  /** `consume`'s range test on the offsets from a donut. */
  predicate InCaptureRange(dx: real, dy: real) {
    dx * dx + dy * dy < CaptureRadiusSq
  }

  /** The player is in reach of donut `k`. */
  predicate Captured(p: Vec3, k: nat)
    requires k < 4
  {
    InCaptureRange(p.x - DonutCenters[k].0, p.y - DonutCenters[k].1)
  }

  /** Donut `k` is eaten if in reach: its flag becomes 1 and it and its
      frosting stop being drawn. Nothing stops a donut already eaten from
      being eaten again. */
  function ConsumeDonut(s: GameState, k: nat): (t: GameState)
    requires k < 4
    ensures t.(eaten := s.eaten, donutShown := s.donutShown, frostingShown := s.frostingShown) == s
    ensures t.eaten[k] == 1 <==> Captured(s.position, k) || s.eaten[k] == 1
    ensures forall j :: 0 <= j < 4 && j != k ==>
      t.eaten[j] == s.eaten[j] && t.donutShown[j] == s.donutShown[j] && t.frostingShown[j] == s.frostingShown[j]
  {
    if Captured(s.position, k) then
      s.(eaten := s.eaten[k := 1], donutShown := s.donutShown[k := false],
         frostingShown := s.frostingShown[k := false])
    else s
  }

  /** The four donuts, tested in order. */
  function ConsumeDonuts(s: GameState): GameState {
    ConsumeDonut(ConsumeDonut(ConsumeDonut(ConsumeDonut(s, 0), 1), 2), 3)
  }

  /** The end-of-frame reset of every button's press count. */
  function ClearAllDowns(s: GameState): GameState {
    s.(left := ClearDowns(s.left), right := ClearDowns(s.right), up := ClearDowns(s.up),
       down := ClearDowns(s.down), space := ClearDowns(s.space))
  }

  /** The movement, collision and jump part of a frame: everything `update`
      does before it looks at the donuts. */
  function Physics(s: GameState, elapsed: real, root2: real): GameState
    requires IsRootOfTwo(root2)
  {
    var p := Collide(Clamp(Moved(s, elapsed, root2)), s.coneZ);
    var v := VerticalMotion(s.space.pressed, s.onGround, s.jumpTime, s.elevated, elapsed);
    var (el, g) := Latch(s.elevated, v.onGround, p);
    s.(position := p, jumpTime := v.jumpTime, coneZ := v.height, onGround := g, elevated := el)
  }

  /** `update(elapsed)`: the state after one frame. */
  function Next(s: GameState, elapsed: real, root2: real): (n: GameState)
    requires IsRootOfTwo(root2)
    ensures n.rotation == s.rotation && n.position.z == s.position.z
  {
    ClearAllDowns(ConsumeDonuts(Physics(s, elapsed, root2)))
  }

  // ----- `handle_event`, keyboard branches -----

  function ButtonOf(s: GameState, a: Action): Button {
    match a
    case Left => s.left
    case Right => s.right
    case Down => s.down
    case Up => s.up
    case Jump => s.space
  }

  function WithButton(s: GameState, a: Action, b: Button): GameState {
    match a
    case Left => s.(left := b)
    case Right => s.(right := b)
    case Down => s.(down := b)
    case Up => s.(up := b)
    case Jump => s.(space := b)
  }

  /** The state after a key event: a key-down presses its button, a key-up
      releases it; Escape and other keys change nothing here. */
  function OnKey(s: GameState, e: KeyEvent): (t: GameState)
    ensures t.(left := s.left, right := s.right, up := s.up, down := s.down, space := s.space) == s
  {
    match ActionOf(e.key)
    case None => s
    case Some(a) =>
      var b := ButtonOf(s, a);
      WithButton(s, a, if e.KeyDown? then Press(b) else Release(b))
  }

  /** Whether `handle_event` reports the key event as handled: every game
      key both ways, and Escape on key-down (which releases the mouse). */
  function Handled(e: KeyEvent): bool {
    match e
    case KeyDown(k) => k != OtherKey
    case KeyUp(k) => k != OtherKey && k != KeyEscape
  }
}
