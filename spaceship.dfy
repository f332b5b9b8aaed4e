/**
 * The decoy `Spaceship`: it flies in from one of four sides, is respawned
 * when it leaves the play area, and when shot bursts into a set of point
 * particles whose positions are advanced in place from a velocity buffer.
 * The ship mesh's `visible` flag and each particle set's scene membership are
 * fields; geometry, materials and the mesh hierarchy are not modelled.
 */
module Ships {
  import opened Vectors

  /** Particles per explosion. */
  const ParticleCount: nat := 50
  /** Distance from the centre at which a ship respawns. */
  const SpawnDistance: real := 30.0
  /** A ship with a coordinate beyond this (in absolute value) is respawned. */
  const BoundsLimit: real := 40.0

  // ---------------------------------------------------------------------------
  // reset(): where a ship respawns
  // ---------------------------------------------------------------------------

  /** The six `Math.random()` values `reset` draws, in order. */
  datatype ResetDraws = ResetDraws(side: real, first: real, second: real, speed: real, jitterY: real, jitterZ: real)

  predicate ValidResetDraws(d: ResetDraws) {
    IsDraw(d.side) && IsDraw(d.first) && IsDraw(d.second) &&
    IsDraw(d.speed) && IsDraw(d.jitterY) && IsDraw(d.jitterZ)
  }

  /** `Math.floor(Math.random() * 4)`: 0 right, 1 left, 2 top, 3 bottom. */
  function Side(d: ResetDraws): (s: int)
    requires ValidResetDraws(d)
    ensures 0 <= s < 4
  {
    (d.side * 4.0).Floor
  }

  function SpawnPosition(d: ResetDraws): Vec3
    requires ValidResetDraws(d)
  {
    var s := Side(d);
    if s == 0 then Vec3(SpawnDistance, d.first * 10.0 - 5.0, d.second * 10.0 - 5.0)
    else if s == 1 then Vec3(-SpawnDistance, d.first * 10.0 - 5.0, d.second * 10.0 - 5.0)
    else if s == 2 then Vec3(d.first * 20.0 - 10.0, SpawnDistance, d.second * 10.0 - 5.0)
    else Vec3(d.first * 20.0 - 10.0, -SpawnDistance, d.second * 10.0 - 5.0)
  }

  /** The velocity `reset` sets in its `switch`, before the jitter. */
  function SpawnHeading(d: ResetDraws): Vec3
    requires ValidResetDraws(d)
  {
    var s := Side(d);
    if s == 0 then Vec3(-0.1 - d.speed * 0.1, 0.0, 0.0)
    else if s == 1 then Vec3(0.1 + d.speed * 0.1, 0.0, 0.0)
    else if s == 2 then Vec3(0.0, -0.1 - d.speed * 0.1, 0.0)
    else Vec3(0.0, 0.1 + d.speed * 0.1, 0.0)
  }

  /** The two jitter steps that end `reset`. */
  function Jitter(v: Vec3, d: ResetDraws): Vec3 {
    Vec3(v.x, v.y + (d.jitterY * 0.02 - 0.01), v.z + (d.jitterZ * 0.02 - 0.01))
  }

  function SpawnVelocity(d: ResetDraws): Vec3
    requires ValidResetDraws(d)
  {
    Jitter(SpawnHeading(d), d)
  }

  /** The test in `update` that sends a ship back to `reset`. */
  predicate OutOfBounds(p: Vec3) {
    Abs(p.x) > BoundsLimit || Abs(p.y) > BoundsLimit || Abs(p.z) > BoundsLimit
  }

  /**
   * `reset` puts the ship on the plane x = 30, x = -30, y = 30 or y = -30
   * (by side), with the other coordinates inside [-10, 10) or [-5, 5), and
   * heads it towards the centre along that axis at a speed in [0.1, 0.2).
   */
  lemma SpawnPlacement(d: ResetDraws)
    requires ValidResetDraws(d)
    ensures var p, h := SpawnPosition(d), SpawnHeading(d);
      (Side(d) == 0 ==> p.x == SpawnDistance && -5.0 <= p.y < 5.0 && -5.0 <= p.z < 5.0 &&
                         -0.2 < h.x <= -0.1 && h.y == 0.0 && h.z == 0.0) &&
      (Side(d) == 1 ==> p.x == -SpawnDistance && -5.0 <= p.y < 5.0 && -5.0 <= p.z < 5.0 &&
                         0.1 <= h.x < 0.2 && h.y == 0.0 && h.z == 0.0) &&
      (Side(d) == 2 ==> p.y == SpawnDistance && -10.0 <= p.x < 10.0 && -5.0 <= p.z < 5.0 &&
                         h.x == 0.0 && -0.2 < h.y <= -0.1 && h.z == 0.0) &&
      (Side(d) == 3 ==> p.y == -SpawnDistance && -10.0 <= p.x < 10.0 && -5.0 <= p.z < 5.0 &&
                         h.x == 0.0 && 0.1 <= h.y < 0.2 && h.z == 0.0)
  {
  }

  /** After `reset` every coordinate is within 30 of the centre, so the bounds test cannot fire. */
  lemma SpawnInBounds(d: ResetDraws)
    requires ValidResetDraws(d)
    ensures var p := SpawnPosition(d);
      Abs(p.x) <= SpawnDistance && Abs(p.y) <= SpawnDistance && Abs(p.z) <= SpawnDistance
    ensures !OutOfBounds(SpawnPosition(d))
  {
    SpawnPlacement(d);
  }

  /** The jitter leaves `x` alone and moves `y` and `z` by amounts in [-0.01, 0.01). */
  lemma JitterBounds(v: Vec3, d: ResetDraws)
    requires ValidResetDraws(d)
    ensures var w := Jitter(v, d);
      w.x == v.x && -0.01 <= w.y - v.y < 0.01 && -0.01 <= w.z - v.z < 0.01
  {
  }

  // ---------------------------------------------------------------------------
  // explode(): the particle buffers
  // ---------------------------------------------------------------------------

  /** The five `Math.random()` values `explode` draws per particle, in order. */
  datatype ParticleDraw = ParticleDraw(vx: real, vy: real, vz: real, red: real, green: real)

  predicate ValidParticleDraw(d: ParticleDraw) {
    IsDraw(d.vx) && IsDraw(d.vy) && IsDraw(d.vz) && IsDraw(d.red) && IsDraw(d.green)
  }

  predicate ValidParticleDraws(ds: seq<ParticleDraw>) {
    forall i :: 0 <= i < |ds| ==> ValidParticleDraw(ds[i])
  }

  /** `(Math.random() - 0.5) * 0.3` per component. */
  function ParticleVelocity(d: ParticleDraw): (v: Vec3)
    requires ValidParticleDraw(d)
    ensures -0.15 <= v.x < 0.15 && -0.15 <= v.y < 0.15 && -0.15 <= v.z < 0.15
  {
    Vec3((d.vx - 0.5) * 0.3, (d.vy - 0.5) * 0.3, (d.vz - 0.5) * 0.3)
  }

  /** Red and green `Math.random() * 0.5 + 0.5`, blue 1. */
  function ParticleColor(d: ParticleDraw): (c: Vec3)
    requires ValidParticleDraw(d)
    ensures 0.5 <= c.x < 1.0 && 0.5 <= c.y < 1.0 && c.z == 1.0
  {
    Vec3(d.red * 0.5 + 0.5, d.green * 0.5 + 0.5, 1.0)
  }

  function Velocities(ds: seq<ParticleDraw>): (vs: seq<Vec3>)
    requires ValidParticleDraws(ds)
    ensures |vs| == |ds|
  {
    seq(|ds|, i requires 0 <= i < |ds| => ParticleVelocity(ds[i]))
  }

  function Colors(ds: seq<ParticleDraw>): (cs: seq<Vec3>)
    requires ValidParticleDraws(ds)
    ensures |cs| == |ds|
  {
    seq(|ds|, i requires 0 <= i < |ds| => ParticleColor(ds[i]))
  }

  function Repeat(v: Vec3, n: nat): (vs: seq<Vec3>)
    ensures |vs| == n
  {
    seq(n, _ => v)
  }

  function Components(v: Vec3): seq<real> {
    [v.x, v.y, v.z]
  }

  /** The layout of a `Float32Array` with item size 3: x, y, z of item 0, then of item 1, ... */
  function Flatten(vs: seq<Vec3>): seq<real> {
    if vs == [] then [] else Flatten(vs[..|vs| - 1]) + Components(vs[|vs| - 1])
  }

  /** Item `i` of a buffer with item size 3 (`getX(i)`, `getY(i)`, `getZ(i)`). */
  function Item(buffer: seq<real>, i: nat): Vec3
    requires 3 * i + 3 <= |buffer|
  {
    Vec3(buffer[3 * i], buffer[3 * i + 1], buffer[3 * i + 2])
  }

  /** Elementwise sum of two buffers. */
  function Sum(a: seq<real>, b: seq<real>): (r: seq<real>)
    requires |a| == |b|
    ensures |r| == |a|
  {
    seq(|a|, k requires 0 <= k < |a| => a[k] + b[k])
  }

  /** Flattening is undone item by item. */
  lemma {:induction false} FlattenItem(vs: seq<Vec3>, i: nat)
    requires i < |vs|
    ensures |Flatten(vs)| == 3 * |vs|
    ensures Item(Flatten(vs), i) == vs[i]
  {
    var n := |vs| - 1;
    FlattenLength(vs[..n]);
    if i < n {
      FlattenItem(vs[..n], i);
    }
  }

  lemma {:induction false} FlattenLength(vs: seq<Vec3>)
    ensures |Flatten(vs)| == 3 * |vs|
  {
    if vs != [] {
      FlattenLength(vs[..|vs| - 1]);
    }
  }

  /** Every entry of the velocity buffer lies in [-0.15, 0.15). */
  lemma {:induction false} VelocityBufferBounds(vs: seq<Vec3>)
    requires forall i :: 0 <= i < |vs| ==> -0.15 <= vs[i].x < 0.15 && -0.15 <= vs[i].y < 0.15 && -0.15 <= vs[i].z < 0.15
    ensures forall k :: 0 <= k < |Flatten(vs)| ==> -0.15 <= Flatten(vs)[k] < 0.15
  {
    if vs != [] {
      VelocityBufferBounds(vs[..|vs| - 1]);
    }
  }

  /** In the colour buffer, red and green of every particle lie in [0.5, 1) and blue is 1. */
  lemma ColorBufferBounds(ds: seq<ParticleDraw>)
    requires ValidParticleDraws(ds)
    ensures |Flatten(Colors(ds))| == 3 * |ds|
    ensures forall i :: 0 <= i < |ds| ==>
      var c := Item(Flatten(Colors(ds)), i);
      0.5 <= c.x < 1.0 && 0.5 <= c.y < 1.0 && c.z == 1.0
  {
    FlattenLength(Colors(ds));
    forall i | 0 <= i < |ds|
      ensures var c := Item(Flatten(Colors(ds)), i); 0.5 <= c.x < 1.0 && 0.5 <= c.y < 1.0 && c.z == 1.0
    {
      FlattenItem(Colors(ds), i);
    }
  }

  /** Every particle starts where the ship was. */
  lemma StartPositions(p: Vec3, n: nat)
    ensures |Flatten(Repeat(p, n))| == 3 * n
    ensures forall i :: 0 <= i < n ==> Item(Flatten(Repeat(p, n)), i) == p
  {
    FlattenLength(Repeat(p, n));
    forall i | 0 <= i < n
      ensures Item(Flatten(Repeat(p, n)), i) == p
    {
      FlattenItem(Repeat(p, n), i);
    }
  }

  // ---------------------------------------------------------------------------
  // The particle set and the ship
  // ---------------------------------------------------------------------------

  /** One `THREE.Points` explosion: its position, velocity and colour buffers. */
  class ParticleSet {
    /** `positions.count`: the number of particles. */
    const count: nat
    const positions: array<real>
    const velocities: array<real>
    const colors: array<real>
    var inScene: bool
    /** Whether `geometry.dispose()` and `material.dispose()` have been called. */
    var released: bool

    ghost predicate Valid() {
      positions.Length == 3 * count && velocities.Length == 3 * count && colors.Length == 3 * count &&
      positions != velocities && positions != colors && velocities != colors
    }

    constructor (count: nat, positions: array<real>, velocities: array<real>, colors: array<real>)
      requires positions.Length == 3 * count && velocities.Length == 3 * count && colors.Length == 3 * count
      requires positions != velocities && positions != colors && velocities != colors
      ensures Valid() && !inScene && !released
      ensures this.count == count && this.positions == positions && this.velocities == velocities && this.colors == colors
    {
      this.count := count;
      this.positions := positions;
      this.velocities := velocities;
      this.colors := colors;
      inScene := false;
      released := false;
    }

    /** The loop in `update`: each position item moves by its velocity item. */
    method Advance()
      requires Valid()
      modifies positions
      ensures positions[..] == Sum(old(positions[..]), velocities[..])
    {
      for i := 0 to count
        invariant forall k :: 0 <= k < 3 * i ==> positions[k] == old(positions[k]) + velocities[k]
        invariant forall k :: 3 * i <= k < positions.Length ==> positions[k] == old(positions[k])
      {
        positions[3 * i] := positions[3 * i] + velocities[3 * i];
        positions[3 * i + 1] := positions[3 * i + 1] + velocities[3 * i + 1];
        positions[3 * i + 2] := positions[3 * i + 2] + velocities[3 * i + 2];
      }
    }
  }

  class Spaceship {
    var position: Vec3
    var velocity: Vec3
    var rotation: Vec3
    const rotationSpeed: Vec3
    var isExploding: bool
    /** The `visible` flag of the ship mesh. */
    var visible: bool
    /** Whether the ship mesh's geometries and materials have been disposed. */
    var meshReleased: bool
    /** `explosionParticles`. */
    var particles: seq<ParticleSet>
    ghost var Repr: set<object>

    /**
     * The object invariant. Because `explode` does nothing while a burst is in
     * flight and the timer body empties the list, at most one particle set
     * exists, and one exists exactly while the ship is exploding; the ship is
     * hidden all that time.
     */
    ghost predicate Valid()
      reads this, Repr
    {
      this in Repr &&
      |particles| <= 1 && (isExploding <==> |particles| == 1) && (isExploding ==> !visible) &&
      forall j :: 0 <= j < |particles| ==>
        particles[j] in Repr && particles[j].positions in Repr &&
        particles[j].velocities in Repr && particles[j].colors in Repr && particles[j].Valid()
    }

    /** `rotationDraws` are the three draws for `rotationSpeed`, `d` those of the first `reset`. */
    constructor (rotationDraws: Vec3, d: ResetDraws)
      requires IsDrawVec(rotationDraws) && ValidResetDraws(d)
      ensures Valid() && fresh(Repr - {this})
      ensures rotationSpeed == Vec3(rotationDraws.x * 0.02 - 0.01, rotationDraws.y * 0.02 - 0.01, rotationDraws.z * 0.02 - 0.01)
      ensures rotation == Zero && position == SpawnPosition(d) && velocity == SpawnVelocity(d)
      ensures !isExploding && visible && !meshReleased && particles == []
    {
      position := Zero;
      velocity := Zero;
      rotation := Zero;
      rotationSpeed := Vec3(rotationDraws.x * 0.02 - 0.01, rotationDraws.y * 0.02 - 0.01, rotationDraws.z * 0.02 - 0.01);
      isExploding := false;
      visible := true;
      meshReleased := false;
      particles := [];
      Repr := {this};
      new;
      Reset(d);
    }

    /** `reset()`: respawn on a random side heading inwards. */
    method Reset(d: ResetDraws)
      requires ValidResetDraws(d)
      modifies this`position, this`velocity
      ensures position == SpawnPosition(d) && velocity == SpawnVelocity(d)
    {
      var side := (d.side * 4.0).Floor;
      if side == 0 {
        position := Vec3(SpawnDistance, d.first * 10.0 - 5.0, d.second * 10.0 - 5.0);
        velocity := Vec3(-0.1 - d.speed * 0.1, 0.0, 0.0);
      } else if side == 1 {
        position := Vec3(-SpawnDistance, d.first * 10.0 - 5.0, d.second * 10.0 - 5.0);
        velocity := Vec3(0.1 + d.speed * 0.1, 0.0, 0.0);
      } else if side == 2 {
        position := Vec3(d.first * 20.0 - 10.0, SpawnDistance, d.second * 10.0 - 5.0);
        velocity := Vec3(0.0, -0.1 - d.speed * 0.1, 0.0);
      } else {
        // side == 3, since the draw is below 1
        position := Vec3(d.first * 20.0 - 10.0, -SpawnDistance, d.second * 10.0 - 5.0);
        velocity := Vec3(0.0, 0.1 + d.speed * 0.1, 0.0);
      }
      velocity := velocity.(y := velocity.y + (d.jitterY * 0.02 - 0.01));
      velocity := velocity.(z := velocity.z + (d.jitterZ * 0.02 - 0.01));
    }

    /**
     * `explode(scene)`: ignored while exploding; otherwise hide the ship and
     * add one new set of `ParticleCount` particles to the scene, all at the
     * ship's position, with velocities and colours from the draws.
     */
    method Explode(draws: seq<ParticleDraw>)
      requires Valid() && |draws| == ParticleCount && ValidParticleDraws(draws)
      modifies this
      ensures Valid() && fresh(Repr - old(Repr))
      ensures old(isExploding) ==> unchanged(this)
      ensures !old(isExploding) ==>
        isExploding && !visible &&
        |particles| == |old(particles)| + 1 && particles[..|old(particles)|] == old(particles) &&
        var ps := particles[|old(particles)|];
        fresh(ps) && fresh(ps.positions) && fresh(ps.velocities) && fresh(ps.colors) &&
        ps.inScene && !ps.released && ps.count == ParticleCount &&
        ps.positions[..] == Flatten(Repeat(position, ParticleCount)) &&
        ps.velocities[..] == Flatten(Velocities(draws)) &&
        ps.colors[..] == Flatten(Colors(draws))
      ensures position == old(position) && velocity == old(velocity) && rotation == old(rotation)
      ensures meshReleased == old(meshReleased)
    {
      if isExploding {
        return;
      }
      isExploding := true;
      visible := false;

      var positions, velocities, colors := FillBuffers(position, draws);
      var ps := new ParticleSet(ParticleCount, positions, velocities, colors);
      ps.inScene := true;
      particles := particles + [ps];
      Repr := Repr + {ps, positions, velocities, colors};
    }

    /**
     * `update()`: when not exploding, move and spin the ship and respawn it
     * with the draws `d` if it left the play area; then advance every
     * particle set. `d` is unused when no respawn happens. A ship that is
     * not exploding is inside the play area afterwards.
     */
    method Update(d: ResetDraws)
      requires Valid() && ValidResetDraws(d)
      modifies this, set j | 0 <= j < |particles| :: particles[j].positions
      ensures Valid() && Repr == old(Repr)
      ensures particles == old(particles) && isExploding == old(isExploding) && visible == old(visible)
      ensures old(isExploding) ==> position == old(position) && velocity == old(velocity) && rotation == old(rotation)
      ensures !old(isExploding) ==>
        rotation == Add(old(rotation), rotationSpeed) &&
        var moved := Add(old(position), old(velocity));
        if OutOfBounds(moved) then position == SpawnPosition(d) && velocity == SpawnVelocity(d)
        else position == moved && velocity == old(velocity)
      ensures !isExploding ==> !OutOfBounds(position)
      ensures forall j :: 0 <= j < |particles| ==>
        particles[j].positions[..] == Sum(old(particles[j].positions[..]), particles[j].velocities[..]) &&
        particles[j].velocities[..] == old(particles[j].velocities[..]) &&
        particles[j].colors[..] == old(particles[j].colors[..]) &&
        particles[j].inScene == old(particles[j].inScene) &&
        particles[j].released == old(particles[j].released)
      ensures meshReleased == old(meshReleased)
    {
      if !isExploding {
        position := Add(position, velocity);
        rotation := Add(rotation, rotationSpeed);
        if Abs(position.x) > BoundsLimit || Abs(position.y) > BoundsLimit || Abs(position.z) > BoundsLimit {
          Reset(d);
          SpawnInBounds(d);
        }
      }

      for j := 0 to |particles|
        modifies set k | 0 <= k < |particles| :: particles[k].positions
        invariant forall k :: 0 <= k < j ==>
          particles[k].positions[..] == Sum(old(particles[k].positions[..]), particles[k].velocities[..])
        invariant forall k :: j <= k < |particles| ==> particles[k].positions[..] == old(particles[k].positions[..])
      {
        particles[j].Advance();
      }
    }

    /**
     * The body of the 2000 ms timer that `explode` starts: show the ship
     * again, respawn it, take every particle set out of the scene, release
     * its geometry and material, and empty the list.
     */
    method FinishExplosion(d: ResetDraws)
      requires Valid() && ValidResetDraws(d)
      modifies this, set j | 0 <= j < |particles| :: particles[j]
      ensures Valid() && Repr == old(Repr)
      ensures !isExploding && visible && particles == []
      ensures position == SpawnPosition(d) && velocity == SpawnVelocity(d) && rotation == old(rotation)
      ensures forall j :: 0 <= j < |old(particles)| ==> !old(particles)[j].inScene && old(particles)[j].released
      ensures meshReleased == old(meshReleased)
    {
      isExploding := false;
      visible := true;
      Reset(d);
      for j := 0 to |particles|
        modifies set k | 0 <= k < |particles| :: particles[k]
        invariant forall k :: 0 <= k < j ==> !particles[k].inScene && particles[k].released
      {
        particles[j].inScene := false;
        particles[j].released := true;
      }
      particles := [];
    }

    /**
     * `dispose()`: release the ship mesh and every particle set's geometry and
     * material. The sets stay in the list and in the scene.
     */
    method Dispose()
      requires Valid()
      modifies this, set j | 0 <= j < |particles| :: particles[j]
      ensures Valid() && Repr == old(Repr)
      ensures meshReleased
      ensures particles == old(particles) && isExploding == old(isExploding) && visible == old(visible)
      ensures position == old(position) && velocity == old(velocity) && rotation == old(rotation)
      ensures forall j :: 0 <= j < |particles| ==> particles[j].released && particles[j].inScene == old(particles[j].inScene)
    {
      meshReleased := true;
      for j := 0 to |particles|
        modifies set k | 0 <= k < |particles| :: particles[k]
        invariant forall k :: 0 <= k < j ==> particles[k].released
        invariant forall k :: 0 <= k < |particles| ==> particles[k].inScene == old(particles[k].inScene)
      {
        particles[j].released := true;
      }
    }
  }

  /**
   * The fill loop of `explode`: item `i` of the position buffer is `origin`,
   * of the velocity and colour buffers what particle draw `i` gives.
   */
  method FillBuffers(origin: Vec3, draws: seq<ParticleDraw>)
    returns (positions: array<real>, velocities: array<real>, colors: array<real>)
    requires ValidParticleDraws(draws)
    ensures fresh(positions) && fresh(velocities) && fresh(colors)
    ensures positions != velocities && positions != colors && velocities != colors
    ensures positions.Length == 3 * |draws| && velocities.Length == 3 * |draws| && colors.Length == 3 * |draws|
    ensures positions[..] == Flatten(Repeat(origin, |draws|))
    ensures velocities[..] == Flatten(Velocities(draws))
    ensures colors[..] == Flatten(Colors(draws))
  {
    var n := |draws|;
    ghost var ps, vs, cs := Repeat(origin, n), Velocities(draws), Colors(draws);
    positions := new real[n * 3];
    velocities := new real[n * 3];
    colors := new real[n * 3];
    for i := 0 to n
      invariant positions[..3 * i] == Flatten(ps[..i])
      invariant velocities[..3 * i] == Flatten(vs[..i])
      invariant colors[..3 * i] == Flatten(cs[..i])
    {
      FillParticle(positions, velocities, colors, i, origin, draws[i], ps, vs, cs);
    }
    assert ps[..n] == ps && vs[..n] == vs && cs[..n] == cs;
  }

  /**
   * One round of the fill loop: the nine writes for particle `i`. When the
   * three buffers hold the first `i` items of `ps`, `vs` and `cs`, afterwards
   * they hold the first `i + 1`.
   */
  method FillParticle(positions: array<real>, velocities: array<real>, colors: array<real>,
                      i: nat, origin: Vec3, d: ParticleDraw,
                      ghost ps: seq<Vec3>, ghost vs: seq<Vec3>, ghost cs: seq<Vec3>)
    requires ValidParticleDraw(d)
    requires positions != velocities && positions != colors && velocities != colors
    requires i < |ps| && i < |vs| && i < |cs|
    requires ps[i] == origin && vs[i] == ParticleVelocity(d) && cs[i] == ParticleColor(d)
    requires 3 * i + 3 <= positions.Length && 3 * i + 3 <= velocities.Length && 3 * i + 3 <= colors.Length
    requires positions[..3 * i] == Flatten(ps[..i])
    requires velocities[..3 * i] == Flatten(vs[..i])
    requires colors[..3 * i] == Flatten(cs[..i])
    modifies positions, velocities, colors
    ensures positions[..3 * (i + 1)] == Flatten(ps[..i + 1])
    ensures velocities[..3 * (i + 1)] == Flatten(vs[..i + 1])
    ensures colors[..3 * (i + 1)] == Flatten(cs[..i + 1])
  {
    var i3 := i * 3;
    positions[i3] := origin.x;
    positions[i3 + 1] := origin.y;
    positions[i3 + 2] := origin.z;
    PrefixStep(positions[..], ps, i);

    velocities[i3] := (d.vx - 0.5) * 0.3;
    velocities[i3 + 1] := (d.vy - 0.5) * 0.3;
    velocities[i3 + 2] := (d.vz - 0.5) * 0.3;
    PrefixStep(velocities[..], vs, i);

    colors[i3] := d.red * 0.5 + 0.5;
    colors[i3 + 1] := d.green * 0.5 + 0.5;
    colors[i3 + 2] := 1.0;
    PrefixStep(colors[..], cs, i);
  }

  /** Writing the three entries of item `i` extends the flattened prefix of a buffer by item `i`. */
  lemma PrefixStep(buffer: seq<real>, items: seq<Vec3>, i: nat)
    requires i < |items| && 3 * i + 3 <= |buffer|
    requires buffer[..3 * i] == Flatten(items[..i])
    requires Item(buffer, i) == items[i]
    ensures buffer[..3 * (i + 1)] == Flatten(items[..i + 1])
  {
    assert items[..i + 1] == items[..i] + [items[i]];
    assert (items[..i] + [items[i]])[..i] == items[..i];
    assert buffer[..3 * (i + 1)] == buffer[..3 * i] + Components(items[i]);
  }
}
