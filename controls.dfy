/**
  How one frame turns the cursor keys into the player's velocity.
 */
module Controls {

  /** The cursor keys held down in a frame. */
  datatype Keys = Keys(left: bool, right: bool, up: bool)

  /** Speed used when the player's stored speed is unset (zero). */
  const DefaultSpeed := 200
  const JumpVelocity := -330

  /** The stored speed, or the default when it is zero. */
  function EffectiveSpeed(stored: int): (speed: int)
    ensures stored != 0 ==> speed == stored
    ensures stored == 0 ==> speed == DefaultSpeed
    ensures speed != 0
  {
    if stored == 0 then DefaultSpeed else stored
  }

  /** Horizontal velocity: left is checked first, then right. */
  function HorizontalVelocity(keys: Keys, speed: int): (v: int)
    ensures v == 0 || v == speed || v == -speed
    ensures speed > 0 ==> (v < 0 <==> keys.left)
    ensures speed > 0 ==> (v > 0 <==> !keys.left && keys.right)
    ensures v == 0 <== !keys.left && !keys.right
  {
    if keys.left then -speed
    else if keys.right then speed
    else 0
  }

  /** Whether the sprite is drawn mirrored: set by the key that moved it,
      kept when no horizontal key is down. */
  function FacingLeft(keys: Keys, before: bool): (mirrored: bool)
    ensures keys.left || keys.right ==> (mirrored <==> keys.left)
    ensures !keys.left && !keys.right ==> mirrored == before
  {
    if keys.left then true
    else if keys.right then false
    else before
  }

  /** Vertical velocity: a jump is applied only with the body on the ground. */
  function VerticalVelocity(keys: Keys, touchingDown: bool, before: int): (v: int)
    ensures v != before ==> keys.up && touchingDown && v == JumpVelocity
    ensures keys.up && touchingDown ==> v == JumpVelocity
  {
    if keys.up && touchingDown then JumpVelocity else before
  }

  /** With both horizontal keys down, the player moves left. */
  lemma LeftBeatsRight(speed: int)
    requires speed > 0
    ensures HorizontalVelocity(Keys(true, true, false), speed) < 0
    ensures HorizontalVelocity(Keys(true, true, true), speed) < 0
  {
  }
}
