/**
 * The per-frame motion rule of one particle, as a pure function on a snapshot of the
 * particle's fields. `Particles.Particle.Update` is proved to change its fields exactly
 * as `Step` says; the lemmas here state what the rule guarantees over any number of frames.
 */
module Kinematics {

  /** A snapshot of every field of a particle (the canvas it draws on is not part of it). */
  datatype ParticleState = ParticleState(
    x: real, y: real,
    color: string, sb: real, sc: string, radius: real,
    ispeed: real, speed: real, maxSpeed: real, acceleration: real,
    xdm: int, ydm: int)

  /** A direction multiplier on one axis. */
  predicate IsDirection(d: int) {
    d == 1 || d == -1
  }

  /** What every particle keeps true: its speed never passes its maximum and it always heads one way or the other on each axis. */
  predicate Inv(p: ParticleState) {
    p.ispeed <= p.maxSpeed && p.speed <= p.maxSpeed && IsDirection(p.xdm) && IsDirection(p.ydm)
  }

  /** A coordinate after moving `speed` units in direction `dm`. */
  function Move(pos: real, speed: real, dm: int): real {
    pos + speed * (dm as real)
  }

  /** Lower edge of the inset region on either axis: radius plus shadow blur. */
  function Low(p: ParticleState): real {
    p.radius + p.sb
  }

  /** Upper edge of the inset region on an axis of the given extent. */
  function High(p: ParticleState, extent: real): real {
    extent - p.radius - p.sb
  }

  /** Whether a coordinate lies beyond either inset edge of its axis. */
  predicate Outside(pos: real, p: ParticleState, extent: real) {
    pos < Low(p) || pos > High(p, extent)
  }

  /** First phase of `update`: both coordinates advance by `speed * direction`. */
  function Moved(p: ParticleState): ParticleState {
    p.(x := Move(p.x, p.speed, p.xdm), y := Move(p.y, p.speed, p.ydm))
  }

  /** Second phase: beyond the left or right inset edge, head back and gain `acceleration`. */
  function BounceX(p: ParticleState, width: real): ParticleState {
    if p.x < Low(p) then p.(xdm := 1, speed := p.speed + p.acceleration)
    else if p.x > High(p, width) then p.(xdm := -1, speed := p.speed + p.acceleration)
    else p
  }

  /** Third phase: the same against the top and bottom inset edges. */
  function BounceY(p: ParticleState, height: real): ParticleState {
    if p.y < Low(p) then p.(ydm := 1, speed := p.speed + p.acceleration)
    else if p.y > High(p, height) then p.(ydm := -1, speed := p.speed + p.acceleration)
    else p
  }

  /** Last phase: a speed that has reached the maximum goes back to the initial speed. */
  function ResetSpeed(p: ParticleState): ParticleState {
    if p.speed >= p.maxSpeed then p.(speed := p.ispeed) else p
  }

  /** The number of axes on which the moved particle is outside the inset region. */
  function Crossings(p: ParticleState, width: real, height: real): (k: nat)
    ensures k <= 2
  {
    var m := Moved(p);
    (if Outside(m.x, p, width) then 1 else 0) + (if Outside(m.y, p, height) then 1 else 0)
  }

  /** One call of `update` on a canvas of the given size. */
  function Step(p: ParticleState, width: real, height: real): (q: ParticleState)
    // the move happens before any bounce and uses the old speed and directions
    ensures q.x == p.x + p.speed * (p.xdm as real) && q.y == p.y + p.speed * (p.ydm as real)
    // only position, speed and directions change
    ensures q == p.(x := q.x, y := q.y, speed := q.speed, xdm := q.xdm, ydm := q.ydm)
    // the speed after a frame is below the maximum or back at the initial speed
    ensures q.speed < p.maxSpeed || q.speed == p.ispeed
  {
    ResetSpeed(BounceY(BounceX(Moved(p), width), height))
  }

  /** The bounce rule: beyond an inset edge the particle is sent back inwards (the left or top edge wins when both are crossed); inside, it keeps going. */
  lemma StepBounce(p: ParticleState, width: real, height: real)
    ensures var q := Step(p, width, height);
            (q.x < Low(p) ==> q.xdm == 1) &&
            (Low(p) <= q.x && q.x > High(p, width) ==> q.xdm == -1) &&
            (Low(p) <= q.x <= High(p, width) ==> q.xdm == p.xdm)
    ensures var q := Step(p, width, height);
            (q.y < Low(p) ==> q.ydm == 1) &&
            (Low(p) <= q.y && q.y > High(p, height) ==> q.ydm == -1) &&
            (Low(p) <= q.y <= High(p, height) ==> q.ydm == p.ydm)
  {
  }

  /** Speed gains one acceleration per crossed axis (none, one or two), then falls back to the initial speed if it has reached the maximum. */
  lemma StepSpeedGain(p: ParticleState, width: real, height: real)
    ensures var gained := p.speed + (Crossings(p, width, height) as real) * p.acceleration;
            Step(p, width, height).speed == if gained >= p.maxSpeed then p.ispeed else gained
  {
  }

  /** `Step` keeps the invariant, and with a non-negative acceleration the speed never drops below the initial speed. */
  lemma StepKeepsInv(p: ParticleState, width: real, height: real)
    requires Inv(p)
    ensures Inv(Step(p, width, height))
    ensures 0.0 <= p.acceleration && p.ispeed <= p.speed ==> p.ispeed <= Step(p, width, height).speed
  {
  }

  /** The particle after a run of frames; the canvas may have a different size in each frame. */
  function Run(p: ParticleState, sizes: seq<(real, real)>): ParticleState
    decreases |sizes|
  {
    if sizes == [] then p else Run(Step(p, sizes[0].0, sizes[0].1), sizes[1..])
  }

  /** Over any number of frames, whatever the canvas size does: speed stays at most `maxSpeed`, directions stay ±1, and the fixed fields stay fixed. */
  lemma {:induction false} RunKeepsInv(p: ParticleState, sizes: seq<(real, real)>)
    requires Inv(p)
    ensures Inv(Run(p, sizes))
    ensures 0.0 <= p.acceleration && p.ispeed <= p.speed ==> p.ispeed <= Run(p, sizes).speed
    ensures var q := Run(p, sizes);
            q.ispeed == p.ispeed && q.maxSpeed == p.maxSpeed && q.acceleration == p.acceleration &&
            q.radius == p.radius && q.sb == p.sb && q.color == p.color && q.sc == p.sc
    decreases |sizes|
  {
    if sizes != [] {
      StepKeepsInv(p, sizes[0].0, sizes[0].1);
      RunKeepsInv(Step(p, sizes[0].0, sizes[0].1), sizes[1..]);
    }
  }

  /** The update turns a particle round but does not pull it back: one frame can leave it outside the inset region. */
  lemma UpdateDoesNotClamp()
    ensures var p := ParticleState(10.0, 50.0, "#FFFFFF", 7.0, "#FFFFFF", 5.0, 3.0, 3.0, 7.0, 1.0, -1, 1);
            var q := Step(p, 100.0, 100.0);
            Inv(p) && Inv(q) && q.x < Low(p) && q.xdm == 1
  {
  }
}
