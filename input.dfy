/// What each key handler does, as a function of whether a ring is selected and
/// whether the engine reports that ring as resting on a surface.
module Input {
  /// Upward impulse requested by the jump key.
  const JUMP_FORCE: int := 1000
  /// Horizontal step of the movement keys, per frame the key is held.
  const MOVE_STEP: int := 10

  datatype Key = Space | Right | Left | Enter

  /// What a handler asks of the selected ring: nothing, an upward impulse, or a shift.
  datatype Effect = NoEffect | Jump(force: int) | Move(dx: int, dy: int)

  /// The handler bound to `key`. Jump acts only on a grounded ring, the movement keys
  /// only on an airborne one, Enter never; with no ring selected nothing happens.
  function Handler(key: Key, selected: bool, grounded: bool): (e: Effect)
    ensures !selected ==> e == NoEffect
    ensures key == Enter ==> e == NoEffect
    ensures e.Jump? <==> key == Space && selected && grounded
    ensures e.Jump? ==> e.force == JUMP_FORCE
    ensures e.Move? <==> (key == Right || key == Left) && selected && !grounded
    ensures e.Move? ==> e.dy == 0 && e.dx == (if key == Right then MOVE_STEP else -MOVE_STEP)
  {
    match key
    case Space => if !selected || !grounded then NoEffect else Jump(JUMP_FORCE)
    case Right => if !selected || grounded then NoEffect else Move(MOVE_STEP, 0)
    case Left => if !selected || grounded then NoEffect else Move(-MOVE_STEP, 0)
    case Enter => NoEffect
  }

  /// For the same grounded reading, the jump guard and the move guards exclude each
  /// other.
  lemma JumpAndMoveExclusive(selected: bool, grounded: bool, jumpKey: Key, moveKey: Key)
    ensures !(Handler(jumpKey, selected, grounded).Jump? && Handler(moveKey, selected, grounded).Move?)
  {
  }
}
