# Donut city play mode, modelled in Dafny

A small third-person game: the player walks a city block with WASD, jumps
with the space bar between a low and an elevated ground tier, is pushed out
of buildings, and eats four donuts. This project models the per-frame game
logic of its play mode (`PlayMode.hpp`, `PlayMode.cpp`) and proves what that
logic guarantees.

Floats are modelled as reals. The `uint8_t` counters and tiers (`downs`,
`elevated.current`, `elevated.jumped_from`, the four eaten flags) are `byte`
(`0 .. 255`), and a press counter wraps at 256 explicitly. `Button.pressed`
and `on_ground` are also `uint8_t` in the source, but the code only ever
stores true or false in them and only tests them for truth, so they are
`bool`.

- `geometry.dfy` (`Geometry`): points, axis-aligned rectangles, `Min`, `Abs`.
- `collision.dfy` (`Collision`): `clip_building` as a method that works on
  its position step by step (`ClipBuilding`), proved equal to a declarative
  clip-out (`Clip`). It comes with its laws and with a list of rectangles
  applied in order (`ClipAll`).
- `terrain.dfy` (`Terrain`): `ground_height`, `get_height` and
  `get_elevated`. The elevation classifier is proved equal to membership in
  a list of low-ground zones.
- `input.dfy` (`Input`): buttons, keys, key events, and what a key-down, a
  key-up and the end-of-frame reset do to a button.
- `frame.dfy` (`Frame`): the whole game state as a value, and one frame of
  `update` as a pure function, `Next`. It is the composition of the blocks
  of `update` in their order: walk, clamp, clip, jump/land, elevation latch,
  donuts, button reset. `OnKey` gives the keyboard branches of
  `handle_event` the same way.
- `frame_props.dfy` (`FrameProps`): the properties of one frame and of one
  key event, the state invariants, and their preservation over any run of
  key events and frames.
- `play_mode.dfy` (`Game`): the class `PlayMode`. Its fields are the game
  state, and its methods change them in place in the order the source
  does. `HandleKey` and `Update` are proved to produce exactly `OnKey` and
  `Next` of the old state, so every lemma about those functions is a
  lemma about the class.

A player might expect a jump only on a fresh press, a landing "at or below"
the ground, a donut to be eaten once, and the walls to hold. The code
behaves differently, and the model follows the code:
- A jump starts while the space bar is *held* (`space.pressed`), not only
  on a fresh press (PlayMode.cpp:183). So holding it makes the player jump
  again on the first frame back on the ground (`FrameProps.JumpStarts`).
- Landing needs the parabola strictly below the ground (`<`,
  PlayMode.cpp:190), not "at or below".
- `consume` sets only its own parameters to null (PlayMode.hpp:95). The
  member pointers stay set, so a donut in reach is consumed again on every
  frame (`FrameProps.ConsumeIdempotent` shows that this changes nothing
  further).
- The raised-area clips read the cone height of the previous frame
  (PlayMode.cpp:173). They can push the player past the clamp box to 19.01,
  17.01 or -3.01 (`FrameProps.RaisedAreaLeavesClampBox`,
  `FrameProps.FarCorner`). A player pushing into the far corner with the cone
  low therefore ends at (19.01, 17.01), not at (18.9, 16.9). The proved
  end-of-frame box is x in [-0.9, 19.01] and y in [-3.01, 17.01]
  (`FrameProps.NextStaysInEndBounds`).

## Model

| member | source | states |
|---|---|---|
| Collision.Clip | PlayMode.hpp:77-88 | the clip-out of one rectangle: each coordinate either stays or becomes one of its rectangle edges, and z is untouched |
| Collision.ClipAll | PlayMode.cpp:168-179 | clipping against a list of rectangles in order: z is untouched, and the point is never left strictly inside the last rectangle |
| Collision.ClipBuilding | PlayMode.hpp:77-88 | the sequential edge tests give the declarative clip-out; the result is never strictly inside; a point that starts inside ends on the border; outside, the point is unchanged |
| Collision.ClipOutsideIsIdentity | PlayMode.hpp:78 | a point not strictly inside the open rectangle is not moved |
| Collision.ClipLandsOnBoundary | PlayMode.hpp:79-87 | a point strictly inside ends on the rectangle's border |
| Collision.ClipLeavesOpenRect | PlayMode.hpp:77-88 | whatever the start, the clipped point is not strictly inside |
| Collision.ClipSnapsNearestEdges | PlayMode.hpp:83-87 | a coordinate moves only when one of its edges is at the minimum distance, and then onto that edge (the high one on a tie); z is untouched |
| Collision.ClipTieGoesHigh | PlayMode.hpp:84-85 | on an exact tie of the two x edges, x ends on `x_hi` |
| Collision.ClipIdempotent | PlayMode.hpp:77-88 | clipping twice against one rectangle is clipping once |
| Collision.ClipAllStaysInBox | PlayMode.cpp:168-179 | applying a list of clips in order keeps a point inside any box that holds it and every rectangle, and keeps its height |
| Terrain.GroundHeight | PlayMode.hpp:58-60 | `ground_height`: every tier stands at least 0.2 high, and any tier above 0 at least 0.3 |
| Terrain.GetHeight | PlayMode.hpp:61-63 | `get_height`: while the timer is in [0, 1] the jump is at or above the launch tier's ground, and never more than 0.25 above it |
| Terrain.GetElevated | PlayMode.hpp:68-75 | `get_elevated`: answers 0 or 1; everything west of x = 0 is low ground, everything east of x = 14 and everything north of y = 10 (east of x = 0) is elevated |
| Terrain.GroundHeightTiers | PlayMode.hpp:58-60 | the low tier stands at 0.2, the elevated tier at 0.3 |
| Terrain.HeightParabola | PlayMode.hpp:61-63 | the jump height equals the launch tier's ground at timer 0 and 1, is symmetric about 0.5, and is at most its value at 0.5, which is 0.25 above the launch ground |
| Terrain.HeightAboveLaunchGround | PlayMode.hpp:61-63 | the jump is above the launch ground exactly while the timer is strictly between 0 and 1 |
| Terrain.ElevatedIffOutsideLowGround | PlayMode.hpp:68-75 | the classifier answers only 0 or 1, and 0 exactly when the position lies in one of the five low-ground zones, whatever the order of the tests |
| Input.ActionOf | PlayMode.cpp:84-125 | exactly the keys A, D, W, S and space drive a button |
| Input.Press | PlayMode.cpp:89-90 | a key-down holds the button and counts one more press, wrapping 255 to 0 |
| Input.Release | PlayMode.cpp:111 | a key-up releases the button and keeps its press count |
| Input.ClearDowns | PlayMode.cpp:249-253 | the end-of-frame reset zeroes the press count and keeps the hold |
| Frame.MoveVector | PlayMode.cpp:148-159 | the movement vector: opposite keys cancel on their axis, and a single key on an axis gives that axis the key's sign, diagonals included |
| Frame.Clamp | PlayMode.cpp:163-166 | after the clamp the point lies in [-0.9, 18.9] x [-2.9, 16.9]; a point already inside is not moved; each side that is crossed is snapped to; z is kept |
| FrameProps.InitialState | PlayMode.hpp:26-29 | given a heading that is a rotation, the initial state has every button at 0 and released, elevation {0, 0}, no jump timer, the player on the ground, no donut eaten (four remaining), and meets every invariant |
| FrameProps.MoveVectorLength | PlayMode.cpp:148-159 | before turning, the movement vector has squared length 0 when opposite keys cancel or none is held, and 1 otherwise, diagonals included |
| FrameProps.YawKeepsLength | PlayMode.cpp:160 | turning by the heading keeps lengths |
| FrameProps.StepLength | PlayMode.cpp:148-160 | one frame of walking moves the player exactly `2 * elapsed` when on some axis exactly one of its two keys is held, and not at all otherwise (no key, or both keys of each axis); it never changes z |
| Frame.Collide | PlayMode.cpp:167-180 | the four buildings in order, then the raised areas only while the previous cone height is below 0.3; from the clamp box it never leaves [-0.9, 19.01] x [-3.01, 17.01], and it never changes the height |
| Frame.VerticalMotion | PlayMode.cpp:182-196 | the jump/landing step: the cone shows either the current tier's ground (landed, timer 0) or the parabola at the new timer; it is never below the current ground with the timer in the landing window; the player is grounded afterwards only if they landed or stayed grounded without jumping |
| Frame.Latch | PlayMode.cpp:198-201 | the elevation latch: the current tier is the one under the position; it never puts a player on the ground; a grounded player launches from the current tier, one in the air keeps the launch tier |
| Frame.ConsumeDonut | PlayMode.cpp:204-207 | one line of the donut block (with `consume`, PlayMode.hpp:91-99): only the donut fields change; donut `k` is eaten afterwards exactly when it was in reach or already eaten; every other donut is untouched |
| Frame.Next | PlayMode.cpp:145-254 | `update` as a function of the old state: it never changes the heading or the player's own height |
| Frame.OnKey | PlayMode.cpp:84-125 | the keyboard branches as a function of the old state: they change only the buttons |
| FrameProps.NextStaysInEndBounds | PlayMode.cpp:145-180 | after any frame the player is within [-0.9, 19.01] x [-3.01, 17.01] |
| FrameProps.RaisedAreaLeavesClampBox | PlayMode.cpp:173-174 | from (18.9, 5) with the cone low, a frame ends at (19.01, 5), outside the clamp box |
| FrameProps.FarCorner | PlayMode.cpp:163-174 | pushing into the corner (19, 17) with no key held ends at (18.9, 16.9) with the cone high, and at (19.01, 17.01) with the cone low |
| FrameProps.JumpStarts | PlayMode.cpp:183-187 | a held jump button on the ground sets the timer to 1 - elapsed and leaves the ground (for elapsed up to 0.5) |
| FrameProps.JumpIgnoredInAir | PlayMode.cpp:183 | in the air, holding the jump button or not gives the same frame apart from the button itself |
| FrameProps.Landing | PlayMode.cpp:183-201 | the player lands (timer 0, cone at the current tier's ground) exactly when the counted-down timer is below 0.5 and the parabola strictly under that ground; otherwise the timer and cone follow the parabola; being on the ground afterwards is characterised in both cases |
| FrameProps.LatchTracksGround | PlayMode.cpp:199-201 | after a frame the current tier is the one under the new position; leaving the elevated tier leaves the player in the air; a grounded player launches from the current tier, and one in the air keeps the old launch tier |
| FrameProps.GroundedInvPreserved | PlayMode.cpp:183-201 | with elapsed at least 0, "on the ground implies no timer and launch tier = current tier" is kept by a frame |
| FrameProps.ConsumeDonutEffect | PlayMode.hpp:91-99 | testing one donut eats it and hides it and its frosting exactly when in reach, and changes nothing else |
| FrameProps.ConsumeDonutsEffect | PlayMode.cpp:204-207 | the donut block eats and hides each donut in reach, leaves each other donut as it was, and changes nothing but the donut fields |
| FrameProps.DonutEaten | PlayMode.cpp:204-207 | after a frame, a donut in reach of the final position is eaten and hidden; one out of reach is as before |
| FrameProps.ConsumeIdempotent | PlayMode.hpp:91-99 | consuming again at the same position (which the never-cleared handles allow) changes nothing further |
| FrameProps.DonutsMonotone | PlayMode.cpp:204-207 | a frame never un-eats a donut; eaten flags stay 0/1 with eaten donuts hidden; the remaining count stays in 0..4 and never grows |
| FrameProps.ButtonsCleared | PlayMode.cpp:248-253 | after a frame every press count is 0 and every hold is as before |
| FrameProps.KeyEventEffect | PlayMode.cpp:84-125 | a game key's key-down counts one press (mod 256) and holds its button, its key-up releases it and keeps the count; every other button and all other state are unchanged; other keys change nothing |
| FrameProps.OnKeyKeepsInv | PlayMode.cpp:84-125 | key events keep every invariant and the eaten flags |
| FrameProps.ApplyEventsKeepsInv | PlayMode.cpp:84-125 | any sequence of key events keeps every invariant and the eaten flags |
| FrameProps.NextKeepsInv | PlayMode.cpp:145-254 | with elapsed at least 0, a frame keeps every invariant, never un-eats a donut and never increases the remaining count |
| FrameProps.RunKeepsInv | PlayMode.cpp:145-254 | over any run of key events and frames with elapsed at least 0, the invariants hold throughout, eaten donuts stay eaten and the remaining count stays in 0..4 and never grows |
| Game.PlayMode.constructor | PlayMode.hpp:26-65 | the new object holds the initial state (all handles present and shown, the heading a rotation about the vertical axis) and meets the invariants |
| Game.PlayMode.HandleKey | PlayMode.cpp:82-125 | answers whether the key event is handled (game keys both ways, Escape on key-down) and updates the state exactly as `OnKey`, keeping the invariants |
| Game.PlayMode.PressKey | PlayMode.cpp:84-108 | the key-down branch: handled exactly for Escape and the game keys, with the buttons updated as `OnKey` |
| Game.PlayMode.ReleaseKey | PlayMode.cpp:109-125 | the key-up branch: handled exactly for the game keys, with the buttons updated as `OnKey` |
| Game.PlayMode.Consume | PlayMode.hpp:91-99 | answers whether the offsets are within squared distance 0.04, and exactly then hides donut `k` and its frosting; nothing else changes |
| Game.PlayMode.Update | PlayMode.cpp:145-254 | changes the fields exactly as `Next`, keeps the invariants, never un-eats a donut, never increases the remaining count, and leaves the player in [-0.9, 19.01] x [-3.01, 17.01] |
| Game.PlayMode.Move | PlayMode.cpp:147-201 | walking, clamp, clips, jump and latch together give `Physics` of the old state |
| Game.PlayMode.MovementVector | PlayMode.cpp:148-159 | the held keys' movement vector, scaled by 1/√2 on a diagonal |
| Game.PlayMode.Walk | PlayMode.cpp:160 | the position after walking along the turned movement vector |
| Game.PlayMode.KeepInBounds | PlayMode.cpp:163-166 | the position is clamped into [-0.9, 18.9] x [-2.9, 16.9] |
| Game.PlayMode.ClipBuildings | PlayMode.cpp:167-180 | the four buildings in order, then the six raised areas only while the cone is below 0.3 |
| Game.PlayMode.ClipFixed | PlayMode.cpp:168-171 | the four fixed buildings, in order |
| Game.PlayMode.ClipRaised | PlayMode.cpp:174-179 | the six raised areas, in order |
| Game.PlayMode.Jump | PlayMode.cpp:182-196 | the jump/landing state machine and the cone height |
| Game.PlayMode.LatchElevation | PlayMode.cpp:198-201 | the elevation latch |
| Game.PlayMode.EatDonuts | PlayMode.cpp:203-207 | the four donuts tested in order at the player's position |
| Game.PlayMode.EatDonut | PlayMode.cpp:204 | one donut consumed at its offsets and flagged eaten on success |
| Game.PlayMode.ResetButtons | PlayMode.cpp:248-253 | every press count zeroed, holds kept |

## Left out

- Drawing, GL state and the text overlay (PlayMode.cpp:256-311) are rendering side effects. The remaining-donut count it shows is `FrameProps.Remaining`.
- Scene and mesh loading and the name lookups of the constructor (PlayMode.cpp:22-77) use engine types outside this model. The constructor takes the player's start transform and the cone's height as parameters. It assumes every named object exists, as the source's throws enforce. So `consume`'s null test is always true here, and a drawable reduces to a "shown" flag (its vertex array is not 0).
- Mouse motion and the quaternion heading (PlayMode.cpp:131-139) are float graphics math. The heading is a yaw rotation given by its cosine and sine, and the invariant requires it to be a rotation. Two facts about it are used: it keeps lengths, and it turns in the ground plane, so walking never changes z.
- Exact ties between clip-out distances are decided over the reals. In single precision some of them are not ties, so such a case can end differently: from (18.9, -2.9) with the cone low, the reals give (19.01, -3.01) but floats give (18.9, -3.01). The witness in `FrameProps.RaisedAreaLeavesClampBox` has a single nearest edge. The tie in `FrameProps.FarCorner` is also a tie in single precision.
- Relative mouse mode (PlayMode.cpp:85-87, 126-130) is an OS call. Escape on key-down is modelled only as "handled", and mouse-button events are not modelled.
- Float rounding, and the exact bits of `sqrtf`, `fmin` and `fabs`, are not modelled: all arithmetic is on reals. `sqrtf(2.f)` is a value `root2` with `root2 > 0` and `root2 * root2 == 2`. The constructor receives it, because Dafny has no real square root.
- The commented-out camera and wobble code (PlayMode.cpp:209-246) is dead code.
- Terrain.HeightParabola: states that the height at 0.5 is the maximum, but not that 0.5 is the only timer where it is reached.
