/** The sprite state machines that the single-file build game.js adds to its
    Player and Enemy classes: the facing direction chosen from the dominant axis
    of the movement, and a two-frame walk cycle (0.2 s per frame for the
    player, who rests on frame 0 when standing still; 0.3 s per frame for
    enemies, who never stop cycling). */
module Animation {
  import opened Vectors

  datatype Facing = Down | Up | Left | Right

  const PlayerFrameTime: real := 0.2
  const EnemyFrameTime: real := 0.3

  function Abs(r: real): real { if r < 0.0 then -r else r }

  /** The facing for a movement `d`: the horizontal axis wins only when it is strictly
      larger, and a zero movement keeps the current facing. */
  function FacingFor(d: Vec, current: Facing): (f: Facing)
    ensures d == ZeroVec() ==> f == current
    ensures d != ZeroVec() && Abs(d.x) > Abs(d.y) ==> (f == Right <==> d.x > 0.0) && (f == Left <==> d.x < 0.0)
    ensures d != ZeroVec() && Abs(d.x) <= Abs(d.y) ==> (f == Down <==> d.y > 0.0) && (f == Up <==> d.y <= 0.0)
  {
    if d.x != 0.0 || d.y != 0.0 then
      if Abs(d.x) > Abs(d.y) then (if d.x > 0.0 then Right else Left)
      else (if d.y > 0.0 then Down else Up)
    else current
  }

  /** An exact diagonal (equal magnitudes) faces up or down. */
  lemma DiagonalFacesVertically(d: Vec, current: Facing)
    requires d != ZeroVec() && Abs(d.x) == Abs(d.y)
    ensures FacingFor(d, current) == Down || FacingFor(d, current) == Up
  {
  }

  datatype Frames = Frames(timer: real, frame: int)

  /** `animationTimer += dt; if (animationTimer >= speed) { animationTimer = 0; currentFrame = (currentFrame + 1) % 2 }`. */
  function Advance(s: Frames, dt: real, speed: real): (r: Frames)
    ensures r.timer == 0.0 || r.timer == s.timer + dt
    ensures r.timer < speed || r.timer == 0.0
  {
    var t := s.timer + dt;
    if t >= speed then Frames(0.0, (s.frame + 1) % 2) else Frames(t, s.frame)
  }

  /** The player's `updateAnimation`: cycling while moving, back to frame 0 at rest. */
  function PlayerFrames(s: Frames, moving: bool, dt: real): Frames
  {
    if moving then Advance(s, dt, PlayerFrameTime) else Frames(0.0, 0)
  }

  /** The enemy's `updateAnimation`: it cycles whether or not the enemy moves. */
  function EnemyFrames(s: Frames, dt: real): Frames
  {
    Advance(s, dt, EnemyFrameTime)
  }

  predicate FrameInRange(s: Frames) { s.frame == 0 || s.frame == 1 }

  /** The frame stays 0 or 1 and flips exactly when the timer reaches the frame time. */
  lemma AdvanceFlips(s: Frames, dt: real, speed: real)
    requires FrameInRange(s)
    ensures FrameInRange(Advance(s, dt, speed))
    ensures s.timer + dt >= speed <==> Advance(s, dt, speed).frame == 1 - s.frame
    ensures s.timer + dt < speed ==> Advance(s, dt, speed) == Frames(s.timer + dt, s.frame)
  {
  }

  /** Two flips bring the frame back. */
  lemma TwoFlipsReturn(s: Frames, dt1: real, dt2: real, speed: real)
    requires FrameInRange(s) && s.timer + dt1 >= speed && dt2 >= speed
    ensures Advance(Advance(s, dt1, speed), dt2, speed).frame == s.frame
  {
  }

  /** The sprite fields of game.js's Player. */
  class PlayerSprite {
    var animationTimer: real
    var currentFrame: int
    var facingDirection: Facing
    var isMoving: bool

    constructor ()
      ensures animationTimer == 0.0 && currentFrame == 0 && facingDirection == Down && !isMoving
    {
      animationTimer := 0.0;
      currentFrame := 0;
      facingDirection := Down;
      isMoving := false;
    }

    function Current(): Frames reads this { Frames(animationTimer, currentFrame) }

    /** The facing half of `updateMovement`. */
    method Face(dir: Vec)
      modifies this
      ensures isMoving <==> dir != ZeroVec()
      ensures facingDirection == FacingFor(dir, old(facingDirection))
      ensures Current() == old(Current())
    {
      if dir.x != 0.0 || dir.y != 0.0 {
        isMoving := true;
        if Abs(dir.x) > Abs(dir.y) {
          facingDirection := if dir.x > 0.0 then Right else Left;
        } else {
          facingDirection := if dir.y > 0.0 then Down else Up;
        }
      } else {
        isMoving := false;
      }
    }

    method UpdateAnimation(dt: real)
      modifies this
      ensures Current() == PlayerFrames(old(Current()), isMoving, dt)
      ensures isMoving == old(isMoving) && facingDirection == old(facingDirection)
    {
      if isMoving {
        animationTimer := animationTimer + dt;
        if animationTimer >= PlayerFrameTime {
          animationTimer := 0.0;
          currentFrame := (currentFrame + 1) % 2;
        }
      } else {
        currentFrame := 0;
        animationTimer := 0.0;
      }
    }

    /** The sprite part of game.js's `Player.update`: the facing is only updated by
        `updateMovement`, which a dash skips; the frames advance either way. */
    method Update(dashing: bool, dir: Vec, dt: real)
      modifies this
      ensures dashing ==> isMoving == old(isMoving) && facingDirection == old(facingDirection)
      ensures !dashing ==> (isMoving <==> dir != ZeroVec()) && facingDirection == FacingFor(dir, old(facingDirection))
      ensures Current() == PlayerFrames(old(Current()), isMoving, dt)
    {
      if !dashing {
        Face(dir);
      }
      UpdateAnimation(dt);
    }
  }

  /** The sprite fields of game.js's Enemy. */
  class EnemySprite {
    var animationTimer: real
    var currentFrame: int
    var facingDirection: Facing

    constructor ()
      ensures animationTimer == 0.0 && currentFrame == 0 && facingDirection == Down
    {
      animationTimer := 0.0;
      currentFrame := 0;
      facingDirection := Down;
    }

    function Current(): Frames reads this { Frames(animationTimer, currentFrame) }

    /** The sprite part of game.js's `Enemy.update`, with `direction` the normalized
        offset towards the player. */
    method Update(direction: Vec, dt: real)
      modifies this
      ensures facingDirection == FacingFor(direction, old(facingDirection))
      ensures Current() == EnemyFrames(old(Current()), dt)
    {
      if direction.x != 0.0 || direction.y != 0.0 {
        if Abs(direction.x) > Abs(direction.y) {
          facingDirection := if direction.x > 0.0 then Right else Left;
        } else {
          facingDirection := if direction.y > 0.0 then Down else Up;
        }
      }
      animationTimer := animationTimer + dt;
      if animationTimer >= EnemyFrameTime {
        animationTimer := 0.0;
        currentFrame := (currentFrame + 1) % 2;
      }
    }
  }
}
