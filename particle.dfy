/**
 * A particle: a coloured disc that moves across a shared drawing area and bounces off its
 * inset edges. Its fields are updated in place once per frame by `Update`.
 */
module Particles {
  import opened Kinematics
  import opened CanvasObjects

  /** The drawing area all particles share; only its size matters to the motion. */
  class Area {
    var width: nat
    var height: nat

    constructor(width: nat, height: nat)
      ensures this.width == width && this.height == height
    {
      this.width := width;
      this.height := height;
    }
  }

  /** The named arguments a particle is constructed with; `commonColor` is both fill and shadow colour. */
  datatype ParticleArgs = ParticleArgs(
    x: NumArg, y: NumArg, commonColor: StrArg, sBlur: NumArg,
    speed: real, maxSpeed: real, acceleration: real, radius: NumArg)

  /** `Math.min` on two numbers. */
  function Min(a: real, b: real): (m: real)
    ensures m <= a && m <= b && (m == a || m == b)
  {
    if a <= b then a else b
  }

  /** A direction from a random draw `r` in [0, 1) for the X axis: `r > 0.5 ? -1 : 1`. */
  function XDirection(r: real): (d: int)
    ensures IsDirection(d) && (d == -1 <==> r > 0.5)
  {
    if r > 0.5 then -1 else 1
  }

  /** A direction from a random draw `r` in [0, 1) for the Y axis: `r < 0.5 ? -1 : 1`. */
  function YDirection(r: real): (d: int)
    ensures IsDirection(d) && (d == -1 <==> r < 0.5)
  {
    if r < 0.5 then -1 else 1
  }

  /** The fields of a freshly constructed particle, given the checked base fields and the two direction draws. */
  function InitialState(b: Base, speed: real, maxSpeed: real, acceleration: real, rx: real, ry: real): (p: ParticleState)
    ensures Inv(p)
    ensures p.speed == p.ispeed && p.ispeed <= speed && p.ispeed <= maxSpeed && (p.ispeed == speed || p.ispeed == maxSpeed)
    ensures p.maxSpeed == maxSpeed && p.acceleration == acceleration
    ensures p.x == b.x && p.y == b.y && p.radius == b.radius && p.sb == b.sb && p.color == b.color && p.sc == b.sc
  {
    ParticleState(b.x, b.y, b.color, b.sb, b.sc, b.radius,
                  Min(speed, maxSpeed), Min(speed, maxSpeed), maxSpeed, acceleration,
                  XDirection(rx), YDirection(ry))
  }

  /** Constructing a particle: the drawable-object check on its arguments, then its initial fields. */
  function Construct(args: ParticleArgs, rx: real, ry: real): (r: Result<ParticleState>)
    ensures r.Err? <==> !WellTyped(args.x, args.y, args.commonColor, args.sBlur, args.commonColor, args.radius)
    ensures r.Ok? ==> Inv(r.value) && r.value.speed == r.value.ispeed == Min(args.speed, args.maxSpeed)
    ensures r.Ok? ==> r.value.x == args.x.value && r.value.y == args.y.value && r.value.radius == args.radius.value &&
                      r.value.color == r.value.sc == args.commonColor.value && r.value.sb == args.sBlur.value
  {
    match NewCanvasObject(args.x, args.y, args.commonColor, args.sBlur, args.commonColor, args.radius)
    case Err(e) => Err(e)
    case Ok(b) => Ok(InitialState(b, args.speed, args.maxSpeed, args.acceleration, rx, ry))
  }

  class Particle {
    const area: Area
    // set by the constructor and never written again
    const color: string
    const sb: real         // shadow blur
    const sc: string       // shadow colour
    const radius: real
    const ispeed: real     // initial speed
    const maxSpeed: real
    const acceleration: real
    // changed by every update
    var x: real
    var y: real
    var speed: real
    var xdm: int           // x direction multiplier
    var ydm: int           // y direction multiplier

    /** The particle's fields as a value. */
    function State(): ParticleState
      reads this
    {
      ParticleState(x, y, color, sb, sc, radius, ispeed, speed, maxSpeed, acceleration, xdm, ydm)
    }

    ghost predicate Valid()
      reads this
    {
      Inv(State())
    }

    /** Sets up a particle from arguments that have passed the check; `rx` and `ry` are the two direction draws. */
    constructor(area: Area, b: Base, speed: real, maxSpeed: real, acceleration: real, rx: real, ry: real)
      ensures this.area == area
      ensures State() == InitialState(b, speed, maxSpeed, acceleration, rx, ry)
      ensures Valid()
    {
      this.area := area;
      x, y := b.x, b.y;
      color, sb, sc := b.color, b.sb, b.sc;
      radius := b.radius;
      ispeed := Min(speed, maxSpeed);
      this.speed := Min(speed, maxSpeed);
      this.maxSpeed := maxSpeed;
      this.acceleration := acceleration;
      xdm := XDirection(rx);
      ydm := YDirection(ry);
    }

    /** `new Particle(area, args)`: fails exactly when the arguments fail the check. */
    static method Create(area: Area, args: ParticleArgs, rx: real, ry: real) returns (r: Result<Particle>)
      ensures r.Err? <==> Construct(args, rx, ry).Err?
      ensures r.Ok? ==> fresh(r.value) && r.value.area == area && r.value.Valid() &&
                        Construct(args, rx, ry) == Ok(r.value.State())
    {
      var base := NewCanvasObject(args.x, args.y, args.commonColor, args.sBlur, args.commonColor, args.radius);
      if base.Err? {
        return Err(base.error);
      }
      var p := new Particle(area, base.value, args.speed, args.maxSpeed, args.acceleration, rx, ry);
      return Ok(p);
    }

    /** One frame: move, bounce off the inset edges gaining speed, and fall back to the initial speed at the maximum. */
    method Update()
      modifies this
      ensures State() == Step(old(State()), area.width as real, area.height as real)
      ensures old(Valid()) ==> Valid()
    {
      ghost var p := State();
      ghost var w, h := area.width as real, area.height as real;
      x := x + speed * (xdm as real);
      y := y + speed * (ydm as real);
      ghost var m := State();
      assert m == Moved(p);

      if x < radius + sb {  // left side
        xdm := 1;
        speed := speed + acceleration;
      } else if x > (area.width as real) - radius - sb {  // right side
        xdm := -1;
        speed := speed + acceleration;
      }
      ghost var bx := State();
      assert bx == BounceX(m, w);

      if y < radius + sb {  // top side
        ydm := 1;
        speed := speed + acceleration;
      } else if y > (area.height as real) - radius - sb {  // bottom side
        ydm := -1;
        speed := speed + acceleration;
      }
      assert State() == BounceY(bx, h);

      if speed >= maxSpeed {  // back to the initial speed
        speed := ispeed;
      }
    }
  }
}
