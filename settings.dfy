/**
 * The shared particle configuration, the random draws that `fillStorage` makes for one
 * particle, the arguments it builds from them, and the two colour inputs that change the
 * configuration.
 */
module Settings {
  import opened CanvasObjects
  import opened Particles
  import HexColour

  /** The mutable configuration record read whenever the collection is (re)filled. */
  datatype ParticleConfig = ParticleConfig(
    minR: real,           // min radius
    maxR: real,           // max radius
    s: real,              // speed
    maxAcc: real,         // max acceleration
    maxS: real,           // max speed
    sb: real,             // shadow blur
    colors: seq<string>,  // colours list
    lw: real,             // width of binding line
    lc: string)           // colour of binding line

  /** The configuration the page starts with. */
  const DefaultConfig := ParticleConfig(3.5, 7.0, 3.0, 1.5, 7.0, 7.0, ["#FFFFFF"], 0.1, "#FFFFFF")

  /**
   * The `Math.random()` results consumed for one particle, in the order the code draws them:
   * position, colour, maximum speed, acceleration, radius, then the two directions
   * drawn inside the particle constructor.
   */
  datatype Draws = Draws(x: real, y: real, colour: real, maxSpeed: real, acceleration: real,
                         radius: real, xDir: real, yDir: real)
  {
    /** Each draw lies in [0, 1), as `Math.random` guarantees. */
    predicate InRange() {
      0.0 <= x < 1.0 && 0.0 <= y < 1.0 && 0.0 <= colour < 1.0 && 0.0 <= maxSpeed < 1.0 &&
      0.0 <= acceleration < 1.0 && 0.0 <= radius < 1.0 && 0.0 <= xDir < 1.0 && 0.0 <= yDir < 1.0
    }
  }

  /** `Math.ceil`. */
  function Ceil(v: real): (c: int)
    ensures v <= c as real < v + 1.0
  {
    -((-v).Floor)
  }

  /** `r * (hi - lo) + lo` for a draw `r`: a uniform pick between `lo` and `hi`. */
  function Scale(r: real, lo: real, hi: real): real {
    r * (hi - lo) + lo
  }

  lemma ProductSign(a: real, b: real)
    requires 0.0 <= a && 0.0 <= b
    ensures 0.0 <= a * b
    ensures 0.0 < a && 0.0 < b ==> 0.0 < a * b
  {
  }

  lemma Distribute(r: real, t: real)
    ensures (1.0 - r) * t == t - r * t
  {
  }

  /** A draw in [0, 1) scaled onto [lo, hi] stays in [lo, hi], and below `hi` when the interval is not a point. */
  lemma ScaleInRange(r: real, lo: real, hi: real)
    requires 0.0 <= r < 1.0 && lo <= hi
    ensures lo <= Scale(r, lo, hi) <= hi
    ensures lo < hi ==> Scale(r, lo, hi) < hi
  {
    var t := hi - lo;
    ProductSign(r, t);
    ProductSign(1.0 - r, t);
    Distribute(r, t);
  }

  /** `~~(r * n)`: the index of the colour picked from a list of `n` colours. */
  function ColourIndex(r: real, n: nat): (c: int)
    ensures c as real <= r * (n as real) < c as real + 1.0
  {
    (r * (n as real)).Floor
  }

  /** A draw in [0, 1) always picks an index inside a non-empty list. */
  lemma ColourIndexInRange(r: real, n: nat)
    requires 0.0 <= r < 1.0 && 0 < n
    ensures 0 <= ColourIndex(r, n) < n
  {
    ScaleInRange(r, 0.0, n as real);
    assert Scale(r, 0.0, n as real) == r * (n as real);
  }

  /** The entry at the index, or `undefined` (not a string) past the end of the list. */
  function ColourAt(colors: seq<string>, i: int): (c: StrArg)
    ensures c.Text? <==> 0 <= i < |colors|
    ensures c.Text? ==> c.value in colors
  {
    if 0 <= i < |colors| then Text(colors[i]) else NotText
  }

  /** The arguments `fillStorage` passes to the particle constructor on a canvas of the given size. */
  function SpawnArgs(cfg: ParticleConfig, width: real, height: real, d: Draws): (a: ParticleArgs)
    // position, blur and radius are always numbers; only the colour can be missing
    ensures a.x.Num? && a.y.Num? && a.sBlur == Num(cfg.sb) && a.radius.Num?
    ensures a.commonColor.Text? ==> a.commonColor.value in cfg.colors
    // the configured speed is passed as is, and the maximum speed is a whole number
    ensures a.speed == cfg.s && a.maxSpeed == a.maxSpeed.Floor as real
  {
    var pcr := cfg.maxR;
    ParticleArgs(
      x := Num(d.x * (width - 2.0 * pcr) + pcr),
      y := Num(d.y * (height - 2.0 * pcr) + pcr),
      commonColor := ColourAt(cfg.colors, ColourIndex(d.colour, |cfg.colors|)),
      sBlur := Num(cfg.sb),
      speed := cfg.s,
      maxSpeed := Ceil(Scale(d.maxSpeed, cfg.s, cfg.maxS)) as real,
      acceleration := Scale(d.acceleration, 0.5, cfg.maxAcc),
      radius := Num(Scale(d.radius, cfg.minR, pcr)))
  }

  /** A spawned particle is constructed successfully exactly when the colours list is not empty. */
  lemma SpawnAccepted(cfg: ParticleConfig, width: real, height: real, d: Draws)
    requires d.InRange()
    ensures Construct(SpawnArgs(cfg, width, height, d), d.xDir, d.yDir).Ok? <==> |cfg.colors| > 0
  {
    if |cfg.colors| > 0 {
      ColourIndexInRange(d.colour, |cfg.colors|);
    }
  }

  /** A new particle starts inside [maxR, width - maxR) x [maxR, height - maxR), whatever the other settings are. */
  lemma SpawnPosition(cfg: ParticleConfig, width: real, height: real, d: Draws)
    requires d.InRange() && |cfg.colors| > 0
    requires 2.0 * cfg.maxR < width && 2.0 * cfg.maxR < height
    ensures Construct(SpawnArgs(cfg, width, height, d), d.xDir, d.yDir).Ok?
    ensures var p := Construct(SpawnArgs(cfg, width, height, d), d.xDir, d.yDir).value;
            cfg.maxR <= p.x < width - cfg.maxR && cfg.maxR <= p.y < height - cfg.maxR
  {
    var pcr := cfg.maxR;
    SpawnAccepted(cfg, width, height, d);
    ScaleInRange(d.x, pcr, width - pcr);
    assert Scale(d.x, pcr, width - pcr) == d.x * (width - 2.0 * pcr) + pcr;
    ScaleInRange(d.y, pcr, height - pcr);
    assert Scale(d.y, pcr, height - pcr) == d.y * (height - 2.0 * pcr) + pcr;
  }

  /**
   * How a particle starts: with a colour from the list, the configured blur, an integer
   * maximum speed, and speed, acceleration and radius picked from their configured ranges
   * whenever the configuration orders the bounds of that range (the sliders need not).
   */
  lemma SpawnInRange(cfg: ParticleConfig, width: real, height: real, d: Draws)
    requires d.InRange() && |cfg.colors| > 0
    ensures Construct(SpawnArgs(cfg, width, height, d), d.xDir, d.yDir).Ok?
    ensures var p := Construct(SpawnArgs(cfg, width, height, d), d.xDir, d.yDir).value;
            p.color in cfg.colors && p.sb == cfg.sb && p.maxSpeed == p.maxSpeed.Floor as real &&
            p.speed == p.ispeed == Min(cfg.s, p.maxSpeed)
    ensures var p := Construct(SpawnArgs(cfg, width, height, d), d.xDir, d.yDir).value;
            cfg.s <= cfg.maxS ==> p.speed == p.ispeed == cfg.s && cfg.s <= p.maxSpeed < cfg.maxS + 1.0
    ensures var p := Construct(SpawnArgs(cfg, width, height, d), d.xDir, d.yDir).value;
            0.5 <= cfg.maxAcc ==> 0.5 <= p.acceleration <= cfg.maxAcc
    ensures var p := Construct(SpawnArgs(cfg, width, height, d), d.xDir, d.yDir).value;
            cfg.minR <= cfg.maxR ==> cfg.minR <= p.radius <= cfg.maxR
  {
    SpawnAccepted(cfg, width, height, d);
    if cfg.s <= cfg.maxS {
      ScaleInRange(d.maxSpeed, cfg.s, cfg.maxS);
    }
    if 0.5 <= cfg.maxAcc {
      ScaleInRange(d.acceleration, 0.5, cfg.maxAcc);
    }
    if cfg.minR <= cfg.maxR {
      ScaleInRange(d.radius, cfg.minR, cfg.maxR);
    }
  }

  /** With the starting configuration every particle is constructed, inside [7, width - 7) x [7, height - 7), at speed 3 with a maximum speed in [3, 8). */
  lemma DefaultConfigSpawn(width: real, height: real, d: Draws)
    requires d.InRange() && 14.0 < width && 14.0 < height
    ensures Construct(SpawnArgs(DefaultConfig, width, height, d), d.xDir, d.yDir).Ok?
    ensures var p := Construct(SpawnArgs(DefaultConfig, width, height, d), d.xDir, d.yDir).value;
            7.0 <= p.x < width - 7.0 && 7.0 <= p.y < height - 7.0 &&
            p.speed == 3.0 && 3.0 <= p.maxSpeed < 8.0 && 0.5 <= p.acceleration <= 1.5 &&
            3.5 <= p.radius <= 7.0 && p.color == "#FFFFFF"
  {
    SpawnPosition(DefaultConfig, width, height, d);
    SpawnInRange(DefaultConfig, width, height, d);
  }

  /** The particle colour input: a value passing the hex test replaces the first colour; any other value changes nothing. */
  function OnColourInput(cfg: ParticleConfig, value: string): (r: ParticleConfig)
    ensures HexColour.Test(value) ==> r == cfg.(colors := r.colors) && |r.colors| == if |cfg.colors| == 0 then 1 else |cfg.colors|
    ensures HexColour.Test(value) ==> r.colors[0] == value && forall i :: 1 <= i < |cfg.colors| ==> r.colors[i] == cfg.colors[i]
    ensures !HexColour.Test(value) ==> r == cfg
  {
    if HexColour.Test(value) then
      cfg.(colors := if |cfg.colors| == 0 then [value] else cfg.colors[0 := value])
    else cfg
  }

  /** The line colour input: a value passing the hex test becomes the line colour; any other value changes nothing. */
  function OnLineColourInput(cfg: ParticleConfig, value: string): (r: ParticleConfig)
    ensures HexColour.Test(value) ==> r == cfg.(lc := r.lc) && r.lc == value
    ensures !HexColour.Test(value) ==> r == cfg
  {
    if HexColour.Test(value) then cfg.(lc := value) else cfg
  }

  /** A colour written anywhere inside the typed text is enough for both inputs to take the whole text. */
  lemma ColourInputsUnanchored(cfg: ParticleConfig, pre: string, hex: string, post: string)
    requires HexColour.IsHexColour(hex)
    ensures var r := OnColourInput(cfg, pre + hex + post); |r.colors| > 0 && r.colors[0] == pre + hex + post
    ensures OnLineColourInput(cfg, pre + hex + post).lc == pre + hex + post
  {
    HexColour.UnanchoredAccept(pre, hex, post);
  }

  /** Text without a `#` is ignored by both inputs. */
  lemma ColourInputsIgnoreNoHash(cfg: ParticleConfig, value: string)
    requires '#' !in value
    ensures OnColourInput(cfg, value) == cfg && OnLineColourInput(cfg, value) == cfg
  {
    if HexColour.Test(value) {
      HexColour.AcceptedHasHash(value);
    }
  }
}
