/** Input tracking: each logical button counts its key-down events since the
    last frame (`downs`, a wrapping `uint8_t`) and remembers whether it is
    held (`pressed`). */
module Input {
  import opened Geometry

  datatype Button = Button(downs: byte, pressed: bool)

  /** All buttons start with no presses counted and not held. */
  const Released: Button := Button(0, false)

  /** The keys the game reacts to; every other key is `OtherKey`. */
  datatype Key = KeyA | KeyD | KeyW | KeyS | KeySpace | KeyEscape | OtherKey

  datatype KeyEvent = KeyDown(key: Key) | KeyUp(key: Key)

  /** The five logical buttons, in the order the game declares them. */
  datatype Action = Left | Right | Down | Up | Jump

  /** Which button a key drives, if any. */
  function ActionOf(k: Key): (a: Option<Action>)
    ensures a.Some? <==> k !in {KeyEscape, OtherKey}
  {
    match k
    case KeyA => Some(Left)
    case KeyD => Some(Right)
    case KeyW => Some(Up)
    case KeyS => Some(Down)
    case KeySpace => Some(Jump)
    case _ => None
  }

  datatype Option<T> = None | Some(value: T)

  /** A key-down: one more press counted (wrapping at 256) and held. */
  function Press(b: Button): (r: Button)
    ensures r.pressed
    ensures r.downs == if b.downs == 255 then 0 else b.downs + 1
  {
    Button((b.downs + 1) % 256, true)
  }

  /** A key-up: no longer held; the count of presses is kept. */
  function Release(b: Button): (r: Button)
    ensures !r.pressed && r.downs == b.downs
  {
    b.(pressed := false)
  }

  /** End of frame: the press count goes back to zero, the hold is kept. */
  function ClearDowns(b: Button): (r: Button)
    ensures r.downs == 0 && r.pressed == b.pressed
  {
    b.(downs := 0)
  }
}
