/**
 * The particle collection: the array of particles that is filled, cleared and updated in
 * place, its bind distance, and one animation frame (update every particle, then link the
 * ones close enough to each other).
 */
module Collection {
  import opened Kinematics
  import opened CanvasObjects
  import opened Particles
  import opened Settings
  import opened Links

  /** `Math.max(n * 3.5, 1e2)`: the default distance for binding particles. */
  function DefaultBindDistance(n: nat): (d: real)
    ensures 100.0 <= d && 3.5 * (n as real) <= d
    ensures d == 100.0 || d == 3.5 * (n as real)
  {
    if n as real * 3.5 >= 100.0 then n as real * 3.5 else 100.0
  }

  /** `Math.max(~~(width / 50), 0x0f)`: how many particles the page starts with on a canvas `width` pixels wide. */
  function InitialCount(width: nat): (n: nat)
    ensures 15 <= n && width / 50 <= n
    ensures n == 15 || n * 50 <= width < (n + 1) * 50
  {
    if width / 50 >= 15 then width / 50 else 15
  }

  /** The positions of a sequence of particles. */
  function PointsOf(ps: seq<Particle>): (r: seq<Point>)
    reads ps
    ensures |r| == |ps| && forall i :: 0 <= i < |ps| ==> r[i] == Point(ps[i].x, ps[i].y)
  {
    if ps == [] then [] else PointsOf(ps[..|ps| - 1]) + [Point(ps[|ps| - 1].x, ps[|ps| - 1].y)]
  }

  class ParticlesCollection {
    const pa: Area         // particles area
    var storage: seq<Particle>
    var length: nat        // how many particles a fill creates
    var pbd: real          // distance for particles bind

    /** Every stored particle is valid, draws on this collection's area, and is stored only once. */
    ghost predicate Valid()
      reads this, storage
    {
      (forall i :: 0 <= i < |storage| ==> storage[i].area == pa && storage[i].Valid()) &&
      (forall i, j :: 0 <= i < j < |storage| ==> storage[i] != storage[j])
    }

    /** The particles stored from index `from` on are, in order, those built from `draws` and the configuration on this area. */
    ghost predicate SpawnedFrom(cfg: ParticleConfig, draws: seq<Draws>, from: nat)
      reads this, storage, pa
    {
      from <= |storage| && |storage| - from <= |draws| &&
      forall j :: from <= j < |storage| ==>
        Construct(SpawnArgs(cfg, pa.width as real, pa.height as real, draws[j - from]),
                  draws[j - from].xDir, draws[j - from].yDir)
        == Ok(storage[j].State())
    }

    /** The stored particles' positions. */
    function Positions(): (r: seq<Point>)
      reads this, storage
      ensures |r| == |storage|
    {
      PointsOf(storage)
    }

    /** The fields the collection constructor sets before it fills the storage. */
    constructor(particlesArea: Area, particlesNumber: nat)
      ensures pa == particlesArea && storage == [] && length == particlesNumber
      ensures pbd == DefaultBindDistance(particlesNumber)
      ensures Valid()
    {
      pa := particlesArea;
      storage := [];
      length := particlesNumber;
      pbd := DefaultBindDistance(particlesNumber);
    }

    /** `new ParticlesCollection(area, n)`: set up, then fill; it fails when filling fails. */
    static method Create(particlesArea: Area, particlesNumber: nat, cfg: ParticleConfig, draws: seq<Draws>)
      returns (r: Result<ParticlesCollection>)
      requires |draws| == particlesNumber
      requires forall k :: 0 <= k < |draws| ==> draws[k].InRange()
      ensures r.Ok? <==> (particlesNumber == 0 || |cfg.colors| > 0)
      ensures r.Ok? ==> fresh(r.value) && r.value.Valid() && r.value.pa == particlesArea &&
                        r.value.length == particlesNumber && |r.value.storage| == particlesNumber &&
                        r.value.pbd == DefaultBindDistance(particlesNumber) &&
                        r.value.SpawnedFrom(cfg, draws, 0) &&
                        forall j :: 0 <= j < |r.value.storage| ==> fresh(r.value.storage[j])
    {
      var c := new ParticlesCollection(particlesArea, particlesNumber);
      var ok := c.FillStorage(cfg, draws);
      if !ok {
        return Err(IncorrectDataType);
      }
      return Ok(c);
    }

    /**
     * Appends `length` new particles built from `draws` and the configuration. When the colours
     * list is empty the colour picked is `undefined`, the first construction throws, and the
     * storage is left as it was.
     */
    method FillStorage(cfg: ParticleConfig, draws: seq<Draws>) returns (ok: bool)
      requires Valid()
      requires |draws| == length
      requires forall k :: 0 <= k < |draws| ==> draws[k].InRange()
      modifies this
      ensures Valid() && length == old(length) && pbd == old(pbd)
      ensures ok <==> (length == 0 || |cfg.colors| > 0)
      ensures !ok ==> storage == old(storage)
      ensures ok ==> |storage| == old(|storage|) + length && storage[..old(|storage|)] == old(storage)
      ensures ok ==> forall j :: old(|storage|) <= j < |storage| ==> fresh(storage[j])
      ensures ok ==> SpawnedFrom(cfg, draws, old(|storage|))
    {
      ghost var n0 := |storage|;
      var i := 0;
      while i < length
        invariant 0 <= i <= length && length == old(length) && pbd == old(pbd)
        invariant |storage| == n0 + i && storage[..n0] == old(storage)
        invariant i > 0 ==> |cfg.colors| > 0
        invariant forall j :: n0 <= j < |storage| ==> fresh(storage[j])
        invariant SpawnedFrom(cfg, draws, n0)
        invariant Valid()
      {
        var d := draws[i];
        SpawnAccepted(cfg, pa.width as real, pa.height as real, d);
        var made := Particle.Create(pa, SpawnArgs(cfg, pa.width as real, pa.height as real, d), d.xDir, d.yDir);
        if made.Err? {
          return false;
        }
        storage := storage + [made.value];
        i := i + 1;
      }
      return true;
    }

    /** Drops every particle. */
    method ClearStorage()
      modifies this
      ensures storage == [] && Valid()
      ensures length == old(length) && pbd == old(pbd)
    {
      storage := [];
    }

    /** Clears and refills: afterwards exactly `length` particles, all new, or none if filling failed. */
    method Reset(cfg: ParticleConfig, draws: seq<Draws>) returns (ok: bool)
      requires Valid()
      requires |draws| == length
      requires forall k :: 0 <= k < |draws| ==> draws[k].InRange()
      modifies this
      ensures Valid() && length == old(length) && pbd == old(pbd)
      ensures ok <==> (length == 0 || |cfg.colors| > 0)
      ensures ok ==> |storage| == length
      ensures !ok ==> storage == []
      ensures forall j :: 0 <= j < |storage| ==> fresh(storage[j])
      ensures SpawnedFrom(cfg, draws, 0)
    {
      ClearStorage();
      ok := FillStorage(cfg, draws);
      assert ok ==> |storage| == length;
    }

    /** Applies `update` to every stored particle, in order; the storage itself does not change. */
    method UpdateParticles()
      requires Valid()
      modifies storage
      ensures Valid() && storage == old(storage)
      ensures forall j :: 0 <= j < |storage| ==>
                storage[j].State() == Step(old(storage[j].State()), pa.width as real, pa.height as real)
    {
      var i := 0;
      while i < |storage|
        invariant 0 <= i <= |storage|
        invariant Valid()
        invariant forall j :: 0 <= j < i ==>
                    storage[j].State() == Step(old(storage[j].State()), pa.width as real, pa.height as real)
        invariant forall j :: i <= j < |storage| ==> storage[j].State() == old(storage[j].State())
      {
        storage[i].Update();
        i := i + 1;
      }
    }

    /** The lines `bindParticles(distance)` draws, as ordered pairs of storage indices, in drawing order. */
    method BindParticles(distance: real) returns (links: seq<(nat, nat)>)
      ensures links == AllLinks(Positions(), distance)
    {
      var s := Positions();
      ghost var rows := Rows(s, distance);
      links := [];
      var i := 0;
      while i < |s|
        invariant 0 <= i <= |s|
        invariant links == LinksUpTo(rows, i)
      {
        var bindWith := Neighbours(s, s[i], distance);
        assert bindWith == rows[i];
        var k := 0;
        while k < |bindWith|
          invariant 0 <= k <= |bindWith|
          invariant links == LinksUpTo(rows, i) + Pairs(i, bindWith[..k])
        {
          links := links + [(i, bindWith[k])];
          k := k + 1;
        }
        assert bindWith[..k] == bindWith;
        i := i + 1;
      }
    }

    /** One animation frame after clearing: update every particle, then bind those within `pbd` (drawing is not modelled). */
    method RequestActionFrame() returns (links: seq<(nat, nat)>)
      requires Valid()
      modifies storage
      ensures Valid() && storage == old(storage)
      ensures forall j :: 0 <= j < |storage| ==>
                storage[j].State() == Step(old(storage[j].State()), pa.width as real, pa.height as real)
      ensures links == AllLinks(Positions(), pbd)
    {
      UpdateParticles();
      links := BindParticles(pbd);
    }
  }
}
