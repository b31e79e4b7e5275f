/**
 * Spells and projectiles (src/spells.js): a spell's properties with their fallbacks, the fold of
 * modifier spells into a new projectile, what a projectile does to the world when it enters an
 * occupied pixel, and the hit test against an entity.
 */
module Spells {
  import opened Common
  import opened Materials
  import opened Grid
  import opened Chemistry
  import opened Physics
  import opened Random
  import Config

  datatype SpellType = ProjectileType | ModifierType | UtilityType | TriggerType | NoType

  /** The config object given to `new Spell(config)`; None is a property that is absent. */
  datatype SpellConfig = SpellConfig(
    name: string, kind: SpellType, manaCost: Option<real>, castTime: Option<real>,
    damage: Option<real>, speed: Option<real>, lifetime: Option<real>, size: Option<real>,
    color: Option<string>, material: Option<TypeId>, piercing: bool, bounces: Option<int>,
    homing: Option<real>, explosive: bool, explosionRadius: Option<int>,
    damageMultiplier: Option<real>, speedMultiplier: Option<real>, sizeMultiplier: Option<real>,
    bounceAdd: Option<int>, homingAdd: Option<real>,
    triggerSpells: Option<seq<Spell>>, triggerDelay: Option<real>)

  /** A `Spell`; `material` None is the source's `null`. */
  datatype Spell = Spell(
    name: string, kind: SpellType, manaCost: real, castTime: real,
    damage: real, speed: real, lifetime: real, size: real,
    color: string, material: Option<TypeId>, piercing: bool, bounces: int,
    homing: real, explosive: bool, explosionRadius: int,
    damageMultiplier: real, speedMultiplier: real, sizeMultiplier: real,
    bounceAdd: int, homingAdd: real,
    triggerSpells: seq<Spell>, triggerDelay: real)

  /** A config that gives only a name and a type. */
  function Bare(name: string, kind: SpellType): SpellConfig {
    SpellConfig(name, kind, None, None, None, None, None, None, None, None, false, None,
      None, false, None, None, None, None, None, None, None, None)
  }

  /**
   * `new Spell(config)`: every property given as 0, or absent, takes its fallback (`||`). So a
   * spell never costs 0 mana, and AIR (code 0) as a material becomes no material at all.
   */
  function NewSpell(c: SpellConfig): (s: Spell)
    ensures s.name == c.name && s.kind == c.kind && s.piercing == c.piercing && s.explosive == c.explosive
    ensures s.manaCost != 0.0 && s.speed != 0.0 && s.lifetime != 0.0 && s.size != 0.0
    ensures s.explosionRadius != 0 && s.damageMultiplier != 0.0 && s.speedMultiplier != 0.0 && s.sizeMultiplier != 0.0
    ensures s.material.Some? <==> c.material.Some? && c.material.value != AIR
    ensures s.material.Some? ==> s.material == c.material
  {
    Spell(c.name, c.kind, OrReal(c.manaCost, 10.0), OrReal(c.castTime, 0.0),
      OrReal(c.damage, 0.0), OrReal(c.speed, 200.0), OrReal(c.lifetime, 2.0), OrReal(c.size, 2.0),
      OrString(c.color, "rgb(255, 255, 255)"),
      if c.material.Some? && c.material.value != AIR then c.material else None,
      c.piercing, OrInt(c.bounces, 0), OrReal(c.homing, 0.0), c.explosive, OrInt(c.explosionRadius, 10),
      OrReal(c.damageMultiplier, 1.0), OrReal(c.speedMultiplier, 1.0), OrReal(c.sizeMultiplier, 1.0),
      OrInt(c.bounceAdd, 0), OrReal(c.homingAdd, 0.0),
      if c.triggerSpells.Some? then c.triggerSpells.value else [], OrReal(c.triggerDelay, 0.0))
  }

  /** The fallbacks of `new Spell`, read off a config that sets nothing. */
  lemma SpellDefaults(name: string, kind: SpellType)
    ensures var s := NewSpell(Bare(name, kind));
      s.manaCost == 10.0 && s.castTime == 0.0 && s.damage == 0.0 && s.speed == 200.0 &&
      s.lifetime == 2.0 && s.size == 2.0 && s.color == "rgb(255, 255, 255)" && s.material.None? &&
      !s.piercing && s.bounces == 0 && s.homing == 0.0 && !s.explosive && s.explosionRadius == 10 &&
      s.damageMultiplier == 1.0 && s.speedMultiplier == 1.0 && s.sizeMultiplier == 1.0 &&
      s.bounceAdd == 0 && s.homingAdd == 0.0 && s.triggerSpells == [] && s.triggerDelay == 0.0
  {
  }

  // ------------------------------------------------------------- the SPELLS catalogue

  const MAGIC_ARROW: Spell := NewSpell(Bare("Magic Arrow", ProjectileType).(damage := Some(15.0),
    speed := Some(300.0), lifetime := Some(1.5), color := Some("rgb(150, 150, 255)"), manaCost := Some(5.0)))
  const FIREBALL: Spell := NewSpell(Bare("Fireball", ProjectileType).(damage := Some(25.0),
    speed := Some(200.0), lifetime := Some(2.0), color := Some("rgb(255, 100, 0)"), material := Some(FIRE),
    manaCost := Some(15.0)))
  const LIGHTNING_BOLT: Spell := NewSpell(Bare("Lightning Bolt", ProjectileType).(damage := Some(40.0),
    speed := Some(500.0), lifetime := Some(0.5), color := Some("rgb(100, 200, 255)"),
    material := Some(ELECTRICITY), manaCost := Some(25.0), piercing := true))
  const ACID_BALL: Spell := NewSpell(Bare("Acid Ball", ProjectileType).(damage := Some(20.0),
    speed := Some(150.0), lifetime := Some(2.5), color := Some("rgb(100, 255, 50)"), material := Some(ACID),
    manaCost := Some(20.0)))
  const WATER_BOLT: Spell := NewSpell(Bare("Water Bolt", ProjectileType).(damage := Some(5.0),
    speed := Some(250.0), lifetime := Some(1.5), color := Some("rgb(50, 100, 200)"), material := Some(WATER),
    manaCost := Some(10.0)))
  const ENERGY_ORB: Spell := NewSpell(Bare("Energy Orb", ProjectileType).(damage := Some(30.0),
    speed := Some(150.0), lifetime := Some(3.0), size := Some(4.0), color := Some("rgb(255, 50, 255)"),
    manaCost := Some(30.0)))
  const DAMAGE_PLUS: Spell := NewSpell(Bare("Damage+", ModifierType).(damageMultiplier := Some(1.5),
    manaCost := Some(10.0), color := Some("rgb(255, 100, 100)")))
  const SPEED_PLUS: Spell := NewSpell(Bare("Speed+", ModifierType).(speedMultiplier := Some(1.5),
    manaCost := Some(5.0), color := Some("rgb(100, 255, 100)")))
  const HOMING: Spell := NewSpell(Bare("Homing", ModifierType).(homingAdd := Some(0.5),
    manaCost := Some(15.0), color := Some("rgb(255, 255, 100)")))
  const BOUNCE: Spell := NewSpell(Bare("Bounce", ModifierType).(bounceAdd := Some(3),
    manaCost := Some(10.0), color := Some("rgb(100, 255, 255)")))
  const EXPLOSION: Spell := NewSpell(Bare("Explosive", ModifierType).(explosive := true,
    explosionRadius := Some(15), manaCost := Some(20.0), color := Some("rgb(255, 150, 0)")))
  const RAPID_FIRE: Spell := NewSpell(Bare("Rapid Fire", ModifierType).(castTime := Some(-0.1),
    manaCost := Some(5.0), color := Some("rgb(200, 200, 100)")))
  const TELEPORT: Spell := NewSpell(Bare("Teleport", UtilityType).(manaCost := Some(30.0),
    color := Some("rgb(200, 100, 255)")))
  const SHIELD: Spell := NewSpell(Bare("Shield", UtilityType).(manaCost := Some(20.0),
    color := Some("rgb(100, 200, 255)")))

  /** The fallback shot of a cast with no projectile spell. */
  lemma MagicArrowStats()
    ensures MAGIC_ARROW.kind == ProjectileType && MAGIC_ARROW.manaCost == 5.0 && MAGIC_ARROW.damage == 15.0
    ensures MAGIC_ARROW.speed == 300.0 && MAGIC_ARROW.lifetime == 1.5 && MAGIC_ARROW.size == 2.0
    ensures MAGIC_ARROW.material.None? && !MAGIC_ARROW.explosive && !MAGIC_ARROW.piercing
  {
  }

  // ------------------------------------------------------------- the modifier fold

  /** The projectile properties that the modifier loop of the `Projectile` constructor changes. */
  datatype Flight = Flight(damage: real, vx: real, vy: real, size: real, bounces: int, homing: real,
                           explosive: bool, explosionRadius: int)

  /** The properties a projectile copies from its spell, with the launch velocity. */
  function Launch(s: Spell, vx: real, vy: real): Flight {
    Flight(s.damage, vx, vy, s.size, s.bounces, s.homing, s.explosive, s.explosionRadius)
  }

  /** One turn of the modifier loop. */
  function Modify(f: Flight, m: Spell): Flight {
    f.(damage := f.damage * m.damageMultiplier, vx := f.vx * m.speedMultiplier,
       vy := f.vy * m.speedMultiplier, size := f.size * m.sizeMultiplier,
       bounces := f.bounces + m.bounceAdd, homing := f.homing + m.homingAdd,
       explosive := f.explosive || m.explosive,
       explosionRadius := if m.explosive then m.explosionRadius else f.explosionRadius)
  }

  /** The modifier loop over ms, in order. */
  function Fold(f: Flight, ms: seq<Spell>): Flight
    decreases |ms|
  {
    if ms == [] then f else Modify(Fold(f, ms[..|ms| - 1]), ms[|ms| - 1])
  }

  function DamageMultiplier(m: Spell): real { m.damageMultiplier }
  function SpeedMultiplier(m: Spell): real { m.speedMultiplier }
  function SizeMultiplier(m: Spell): real { m.sizeMultiplier }
  function HomingAdd(m: Spell): real { m.homingAdd }

  /** The product of f over the modifiers. */
  function Product(ms: seq<Spell>, f: Spell -> real): real
    decreases |ms|
  {
    if ms == [] then 1.0 else Product(ms[..|ms| - 1], f) * f(ms[|ms| - 1])
  }

  /** The sum of f over the modifiers. */
  function Sum(ms: seq<Spell>, f: Spell -> real): real
    decreases |ms|
  {
    if ms == [] then 0.0 else Sum(ms[..|ms| - 1], f) + f(ms[|ms| - 1])
  }

  /** The sum of the bounce bonuses of the modifiers. */
  function BounceSum(ms: seq<Spell>): int
    decreases |ms|
  {
    if ms == [] then 0 else BounceSum(ms[..|ms| - 1]) + ms[|ms| - 1].bounceAdd
  }

  /** ms has an explosive modifier at i and none after it. */
  predicate LastExplosive(ms: seq<Spell>, i: int) {
    0 <= i < |ms| && ms[i].explosive && forall j :: i < j < |ms| ==> !ms[j].explosive
  }

  /** The modifier loop scales the damage by the product of the damage multipliers. */
  lemma {:induction false} FoldDamage(s: Spell, vx: real, vy: real, ms: seq<Spell>)
    ensures Fold(Launch(s, vx, vy), ms).damage == s.damage * Product(ms, DamageMultiplier)
    decreases |ms|
  {
    if ms != [] {
      var init := ms[..|ms| - 1];
      FoldDamage(s, vx, vy, init);
      ScaleStep(s.damage, Product(init, DamageMultiplier), DamageMultiplier(ms[|ms| - 1]), Fold(Launch(s, vx, vy), init).damage);
    }
  }

  /** The modifier loop scales the size by the product of the size multipliers. */
  lemma {:induction false} FoldSize(s: Spell, vx: real, vy: real, ms: seq<Spell>)
    ensures Fold(Launch(s, vx, vy), ms).size == s.size * Product(ms, SizeMultiplier)
    decreases |ms|
  {
    if ms != [] {
      var init := ms[..|ms| - 1];
      FoldSize(s, vx, vy, init);
      ScaleStep(s.size, Product(init, SizeMultiplier), SizeMultiplier(ms[|ms| - 1]), Fold(Launch(s, vx, vy), init).size);
    }
  }

  /** The modifier loop scales the horizontal velocity by the product of the speed multipliers. */
  lemma {:induction false} FoldVx(s: Spell, vx: real, vy: real, ms: seq<Spell>)
    ensures Fold(Launch(s, vx, vy), ms).vx == vx * Product(ms, SpeedMultiplier)
    decreases |ms|
  {
    if ms != [] {
      var init := ms[..|ms| - 1];
      FoldVx(s, vx, vy, init);
      ScaleStep(vx, Product(init, SpeedMultiplier), SpeedMultiplier(ms[|ms| - 1]), Fold(Launch(s, vx, vy), init).vx);
    }
  }

  /** The modifier loop scales the vertical velocity by the product of the speed multipliers. */
  lemma {:induction false} FoldVy(s: Spell, vx: real, vy: real, ms: seq<Spell>)
    ensures Fold(Launch(s, vx, vy), ms).vy == vy * Product(ms, SpeedMultiplier)
    decreases |ms|
  {
    if ms != [] {
      var init := ms[..|ms| - 1];
      FoldVy(s, vx, vy, init);
      ScaleStep(vy, Product(init, SpeedMultiplier), SpeedMultiplier(ms[|ms| - 1]), Fold(Launch(s, vx, vy), init).vy);
    }
  }

  /** The modifier loop raises bounces and homing by the sums of the modifiers' bonuses. */
  lemma {:induction false} FoldBonuses(s: Spell, vx: real, vy: real, ms: seq<Spell>)
    ensures Fold(Launch(s, vx, vy), ms).bounces == s.bounces + BounceSum(ms)
    ensures Fold(Launch(s, vx, vy), ms).homing == s.homing + Sum(ms, HomingAdd)
    decreases |ms|
  {
    if ms != [] {
      FoldBonuses(s, vx, vy, ms[..|ms| - 1]);
    }
  }

  /** One more factor on a scaled value is one more factor in the scale. */
  lemma ScaleStep(a: real, p: real, q: real, x: real)
    requires x == a * p
    ensures x * q == a * (p * q)
  {
  }

  /** The modifier loop leaves the projectile explosive exactly when the spell or some modifier is. */
  lemma {:induction false} FoldExplosive(s: Spell, vx: real, vy: real, ms: seq<Spell>)
    ensures Fold(Launch(s, vx, vy), ms).explosive <==> s.explosive || exists i :: 0 <= i < |ms| && ms[i].explosive
    decreases |ms|
  {
    if ms != [] {
      var init := ms[..|ms| - 1];
      FoldExplosive(s, vx, vy, init);
      if exists i :: 0 <= i < |ms| && ms[i].explosive {
        var i :| 0 <= i < |ms| && ms[i].explosive;
        if i < |ms| - 1 {
          assert init[i].explosive;
        }
      }
    }
  }

  /**
   * The explosion radius after the modifier loop: that of the last explosive modifier, or the
   * spell's own when no modifier is explosive.
   */
  lemma {:induction false} FoldRadius(s: Spell, vx: real, vy: real, ms: seq<Spell>)
    ensures (forall i :: 0 <= i < |ms| ==> !ms[i].explosive) ==>
      Fold(Launch(s, vx, vy), ms).explosionRadius == s.explosionRadius
    ensures forall i :: LastExplosive(ms, i) ==> Fold(Launch(s, vx, vy), ms).explosionRadius == ms[i].explosionRadius
    decreases |ms|
  {
    if ms != [] {
      var init := ms[..|ms| - 1];
      FoldRadius(s, vx, vy, init);
      forall i | LastExplosive(ms, i)
        ensures Fold(Launch(s, vx, vy), ms).explosionRadius == ms[i].explosionRadius
      {
        if i < |ms| - 1 {
          assert LastExplosive(init, i);
        }
      }
    }
  }

  // ------------------------------------------------------------- collisions

  /** The projectile properties a collision reads and never changes. */
  datatype Traits = Traits(explosive: bool, explosionRadius: int, material: Option<TypeId>, piercing: bool, bounces: int)

  /** The projectile properties a collision may change. */
  datatype Motion = Motion(vx: real, vy: real, bounceCount: int, dead: bool)

  /** A collision's result: the grid, the next unused draw, the motion, and whether update returns. */
  datatype Impact = Impact(cells: Cells, used: nat, motion: Motion, stop: bool)

  /**
   * One sub-step of `Projectile.update` entering pixel (px, py): an empty or missing pixel is
   * passed through. Otherwise an explosive projectile explodes there and dies; any other places
   * its material, if it has one, and then passes on when piercing, bounces (velocity times -0.8)
   * while it has bounces left, or dies.
   */
  function Collision(g: Cells, px: int, py: int, t: Traits, m: Motion, d: Draws, k: nat): (i: Impact)
  {
    var p := Get(g, px, py);
    if p.None? || IsEmpty(p.value) then Impact(g, k, m, false)
    else if t.explosive then
      var e := Explosion(g, px, py, t.explosionRadius, d, k);
      Impact(e.cells, e.used, m.(dead := true), true)
    else
      var h := if t.material.Some? then SetPixel(g, px, py, t.material.value) else g;
      if t.piercing then Impact(h, k, m, false)
      else if t.bounces > 0 && m.bounceCount < t.bounces then
        Impact(h, k, m.(vx := m.vx * -0.8, vy := m.vy * -0.8, bounceCount := m.bounceCount + 1), false)
      else Impact(h, k, m.(dead := true), true)
  }

  /** The bounce count never passes the number of bounces (it stays 0 when that is not positive). */
  predicate BounceBound(t: Traits, m: Motion) {
    0 <= m.bounceCount && (m.bounceCount <= t.bounces || m.bounceCount == 0)
  }

  /**
   * The collision outcomes: nothing happens in an empty or missing pixel; an explosive projectile
   * leaves exactly the explosion's grid (no material placed) and dies; any other leaves the grid
   * with its material set at (px, py), or unchanged when it has none; a piercing projectile never
   * dies of a collision; a bounce adds one to the count; the update returns exactly when the
   * projectile dies; and the bounce bound is kept.
   */
  lemma CollisionOutcomes(g: Cells, px: int, py: int, t: Traits, m: Motion, d: Draws, k: nat)
    ensures var i := Collision(g, px, py, t, m, d, k);
      (!m.dead ==> (i.stop <==> i.motion.dead)) &&
      (!InBounds(g, px, py) || IsEmpty(g[py][px]) ==> i == Impact(g, k, m, false)) &&
      (InBounds(g, px, py) && !IsEmpty(g[py][px]) ==>
        (t.explosive ==> i.stop && i.motion.dead && i.cells == Explosion(g, px, py, t.explosionRadius, d, k).cells) &&
        (!t.explosive ==> i.used == k && i.cells == (if t.material.Some? then SetPixel(g, px, py, t.material.value) else g)) &&
        (!t.explosive && t.piercing ==> !i.stop && i.motion == m) &&
        (!t.explosive && !t.piercing ==> (i.motion.bounceCount == m.bounceCount + 1 <==> !i.stop))) &&
      (BounceBound(t, m) ==> BounceBound(t, i.motion))
  {
  }

  /** The end of a run of sub-steps: the last impact, and how many sub-steps were entered. */
  datatype Trip = Trip(impact: Impact, entered: nat)

  /**
   * The sub-steps of one `update` through the pixels of path, from sub-step j on; the first that
   * stops ends it.
   */
  function Flies(g: Cells, path: seq<(int, int)>, j: nat, t: Traits, m: Motion, d: Draws, k: nat): (r: Trip)
    requires j <= |path|
    ensures j <= r.entered <= |path|
    ensures r.entered < |path| ==> r.impact.stop
    decreases |path| - j
  {
    if j == |path| then Trip(Impact(g, k, m, false), j)
    else
      var c := Collision(g, path[j].0, path[j].1, t, m, d, k);
      if c.stop then Trip(c, j + 1) else Flies(c.cells, path, j + 1, t, c.motion, d, c.used)
  }

  /** No number of sub-steps breaks the bounce bound, and the flight ends dead exactly when it stops early. */
  lemma {:induction false} FliesKeepsBound(g: Cells, path: seq<(int, int)>, j: nat, t: Traits, m: Motion, d: Draws, k: nat)
    requires j <= |path| && BounceBound(t, m) && !m.dead
    ensures var i := Flies(g, path, j, t, m, d, k).impact;
      BounceBound(t, i.motion) && (i.stop <==> i.motion.dead)
    decreases |path| - j
  {
    if j < |path| {
      var c := Collision(g, path[j].0, path[j].1, t, m, d, k);
      CollisionOutcomes(g, path[j].0, path[j].1, t, m, d, k);
      if !c.stop {
        FliesKeepsBound(c.cells, path, j + 1, t, c.motion, d, c.used);
      }
    }
  }

  /** The world pixel holding coordinate v: `Math.floor(v / CONFIG.PIXEL_SIZE)`. */
  function PixelOf(v: real): (p: int)
    ensures (p * Config.PIXEL_SIZE) as real <= v < ((p + 1) * Config.PIXEL_SIZE) as real
  {
    (v / Config.PIXEL_SIZE as real).Floor
  }

  /** Where i sub-steps of size step take coordinate v, one addition at a time as `update` moves. */
  function Advance(v: real, step: real, i: nat): real
    decreases i
  {
    if i == 0 then v else Advance(v, step, i - 1) + step
  }

  /** i sub-steps move a coordinate by i times the step. */
  lemma {:induction false} AdvanceIsLinear(v: real, step: real, i: nat)
    ensures Advance(v, step, i) == v + i as real * step
    decreases i
  {
    if i > 0 {
      AdvanceIsLinear(v, step, i - 1);
    }
  }

  /** The pixels the sub-steps enter: sub-step i (from 0) moves the projectile i + 1 steps. */
  function StepPath(x: real, y: real, sx: real, sy: real, n: nat): (path: seq<(int, int)>)
    ensures |path| == n
  {
    seq(n, i requires 0 <= i => (PixelOf(Advance(x, sx, i + 1)), PixelOf(Advance(y, sy, i + 1))))
  }

  /** Sub-steps per `update`. */
  const STEPS: nat := 3

  /** The length of one sub-step along an axis: `(v * dt) / steps`. */
  function StepLength(v: real, dt: real): real {
    (v * dt) / STEPS as real
  }

  /**
   * `hits(entity)`: the distance between the centres is below the sum of the sizes, stated on
   * squares; HitsIsDistance relates it to the distance itself.
   */
  function Hits(x: real, y: real, size: real, ex: real, ey: real, esize: real): bool {
    var dx, dy, s := ex - x, ey - y, size + esize;
    s > 0.0 && dx * dx + dy * dy < s * s
  }

  /** For the distance `dist` (the non-negative root of dx² + dy²), hits holds iff dist < size + esize. */
  lemma HitsIsDistance(x: real, y: real, size: real, ex: real, ey: real, esize: real, dist: real)
    requires dist >= 0.0 && dist * dist == (ex - x) * (ex - x) + (ey - y) * (ey - y)
    ensures Hits(x, y, size, ex, ey, esize) <==> dist < size + esize
  {
    if dist < size + esize {
      SquareLess(dist, size + esize);
    } else if size + esize > 0.0 {
      SquareLess(size + esize, dist);
    }
  }

  /** Squaring keeps the order of a non-negative number and a greater one, strict or not. */
  lemma SquareLess(a: real, b: real)
    requires 0.0 <= a
    ensures a < b ==> a * a < b * b
    ensures a <= b ==> a * a <= b * b
  {
    if a < b {
      calc {
        a * a;
      <= { MulMono(a, a, b); }
        a * b;
      < { MulStrict(b, a, b); }
        b * b;
      }
    } else if a == b {
    }
  }

  /** Multiplying by a non-negative number keeps an order. */
  lemma MulMono(a: real, b: real, c: real)
    requires 0.0 <= a && b <= c
    ensures a * b <= a * c
  {
  }

  /** Multiplying by a positive number keeps a strict order. */
  lemma MulStrict(a: real, b: real, c: real)
    requires 0.0 < a && b < c
    ensures b * a < c * a
  {
  }

  class Projectile {
    var x: real
    var y: real
    var vx: real
    var vy: real
    var age: real
    var bounceCount: int
    var dead: bool
    var damage: real
    var lifetime: real
    var size: real
    var color: string
    var material: Option<TypeId>
    var piercing: bool
    var bounces: int
    var homing: real
    var explosive: bool
    var explosionRadius: int

    function TraitsOf(): Traits
      reads this
    {
      Traits(explosive, explosionRadius, material, piercing, bounces)
    }

    function MotionOf(): Motion
      reads this
    {
      Motion(vx, vy, bounceCount, dead)
    }

    /** The fields the modifier loop changes, as a Flight. */
    function FlightOf(): Flight
      reads this
    {
      Flight(damage, vx, vy, size, bounces, homing, explosive, explosionRadius)
    }

    /** A live projectile keeps its bounce count within its bounces. */
    predicate Valid()
      reads this
    {
      BounceBound(TraitsOf(), MotionOf())
    }

    /**
     * `new Projectile(x, y, vx, vy, spell, modifiers)`: the spell's properties, then the loop over
     * the modifiers (FoldDamage, FoldSize, FoldVx, FoldVy, FoldBonuses, FoldExplosive and FoldRadius say what it computes).
     */
    constructor (x: real, y: real, vx: real, vy: real, spell: Spell, modifiers: seq<Spell>)
      ensures Valid() && !dead && age == 0.0 && bounceCount == 0
      ensures this.x == x && this.y == y && lifetime == spell.lifetime && color == spell.color
      ensures material == spell.material && piercing == spell.piercing
      ensures FlightOf() == Fold(Launch(spell, vx, vy), modifiers)
    {
      this.x := x;
      this.y := y;
      this.vx := vx;
      this.vy := vy;
      age := 0.0;
      bounceCount := 0;
      dead := false;
      damage := spell.damage;
      lifetime := spell.lifetime;
      size := spell.size;
      color := spell.color;
      material := spell.material;
      piercing := spell.piercing;
      bounces := spell.bounces;
      homing := spell.homing;
      explosive := spell.explosive;
      explosionRadius := spell.explosionRadius;
      new;
      ApplyModifiers(Launch(spell, vx, vy), modifiers);
    }

    /** The constructor's loop over the modifiers, in order, from the spell's own properties f. */
    method ApplyModifiers(ghost f: Flight, modifiers: seq<Spell>)
      requires FlightOf() == f
      modifies this`damage, this`vx, this`vy, this`size, this`bounces, this`homing, this`explosive, this`explosionRadius
      ensures FlightOf() == Fold(f, modifiers)
    {
      var i := 0;
      while i < |modifiers|
        invariant 0 <= i <= |modifiers|
        invariant FlightOf() == Fold(f, modifiers[..i])
      {
        assert modifiers[..i + 1] == modifiers[..i] + [modifiers[i]];
        ApplyModifier(modifiers[i]);
        i := i + 1;
      }
      assert modifiers[..|modifiers|] == modifiers;
    }

    /** One turn of the constructor's modifier loop. */
    method ApplyModifier(mod: Spell)
      modifies this`damage, this`vx, this`vy, this`size, this`bounces, this`homing, this`explosive, this`explosionRadius
      ensures FlightOf() == Modify(old(FlightOf()), mod)
    {
      damage := damage * mod.damageMultiplier;
      vx := vx * mod.speedMultiplier;
      vy := vy * mod.speedMultiplier;
      size := size * mod.sizeMultiplier;
      bounces := bounces + mod.bounceAdd;
      homing := homing + mod.homingAdd;
      if mod.explosive {
        explosive := true;
        explosionRadius := mod.explosionRadius;
      }
    }

    /** The collision test of one sub-step at pixel (px, py), as Collision states it. */
    method Collide(world: PhysicsWorld, rng: Rng, px: int, py: int) returns (stop: bool)
      requires world.Valid()
      modifies this`vx, this`vy, this`bounceCount, this`dead, world`pixels, rng`used
      ensures world.Valid()
      ensures var i := Collision(old(world.pixels), px, py, TraitsOf(), old(MotionOf()), rng.draws, old(rng.used));
        world.pixels == i.cells && rng.used == i.used && MotionOf() == i.motion && stop == i.stop
    {
      var pixel := world.GetPixel(px, py);
      if pixel.Some? && !Materials.IsEmpty(pixel.value) {
        if explosive {
          world.CreateExplosion(px, py, explosionRadius, rng);
          dead := true;
          return true;
        }
        if material.Some? {
          world.SetPixel(px, py, material.value);
        }
        if piercing {
        } else if bounces > 0 && bounceCount < bounces {
          vx := vx * -0.8;
          vy := vy * -0.8;
          bounceCount := bounceCount + 1;
        } else {
          dead := true;
          return true;
        }
      }
      return false;
    }

    /**
     * `update(dt, world, enemies)` for a projectile that does not turn (homing is left out): the age
     * grows by dt and past the lifetime the projectile dies and nothing else happens; otherwise
     * it advances STEPS times by a third of (vx, vy) * dt, each time colliding with the pixel it
     * enters, and stops at the first collision that ends it.
     */
    method Update(dt: real, world: PhysicsWorld, rng: Rng)
      requires world.Valid()
      modifies this`x, this`y, this`age, this`vx, this`vy, this`bounceCount, this`dead, world`pixels, rng`used
      ensures world.Valid() && age == old(age) + dt
      ensures age > lifetime ==>
        dead && world.pixels == old(world.pixels) && rng.used == old(rng.used) &&
        x == old(x) && y == old(y) && MotionOf() == old(MotionOf()).(dead := true)
      ensures age <= lifetime ==>
        var sx, sy := StepLength(old(vx), dt), StepLength(old(vy), dt);
        var r := Flies(old(world.pixels), StepPath(old(x), old(y), sx, sy, STEPS), 0, old(TraitsOf()), old(MotionOf()),
                       rng.draws, old(rng.used));
        world.pixels == r.impact.cells && rng.used == r.impact.used && MotionOf() == r.impact.motion &&
        x == Advance(old(x), sx, r.entered) && y == Advance(old(y), sy, r.entered)
    {
      age := age + dt;
      if age > lifetime {
        dead := true;
        return;
      }
      var stepX, stepY := StepLength(vx, dt), StepLength(vy, dt);
      assert x == old(x) && y == old(y);
      assert TraitsOf() == old(TraitsOf()) && MotionOf() == old(MotionOf());
      Fly(stepX, stepY, world, rng);
    }

    /** The sub-steps of `update`, each a move by (sx, sy) and a collision. */
    method Fly(sx: real, sy: real, world: PhysicsWorld, rng: Rng)
      requires world.Valid()
      modifies this`x, this`y, this`vx, this`vy, this`bounceCount, this`dead, world`pixels, rng`used
      ensures world.Valid()
      ensures var r := Flies(old(world.pixels), StepPath(old(x), old(y), sx, sy, STEPS), 0, old(TraitsOf()),
                             old(MotionOf()), rng.draws, old(rng.used));
        world.pixels == r.impact.cells && rng.used == r.impact.used && MotionOf() == r.impact.motion &&
        x == Advance(old(x), sx, r.entered) && y == Advance(old(y), sy, r.entered)
    {
      ghost var path := StepPath(x, y, sx, sy, STEPS);
      ghost var traits := TraitsOf();
      ghost var target := Flies(world.pixels, path, 0, traits, MotionOf(), rng.draws, rng.used);
      var j := 0;
      while j < STEPS
        invariant 0 <= j <= STEPS && world.Valid() && TraitsOf() == traits
        invariant x == Advance(old(x), sx, j) && y == Advance(old(y), sy, j)
        invariant Flies(world.pixels, path, j, TraitsOf(), MotionOf(), rng.draws, rng.used) == target
      {
        var stop;
        stop, j := StepFrom(path, j, sx, sy, world, rng, old(x), old(y), target);
        if stop {
          return;
        }
      }
    }

    /**
     * The sub-step j of a run of sub-steps whose outcome is target: on stopping, the state is that
     * outcome; otherwise the rest of the run from sub-step j + 1 still leads to it.
     */
    method StepFrom(ghost path: seq<(int, int)>, j: nat, sx: real, sy: real, world: PhysicsWorld, rng: Rng,
                    ghost x0: real, ghost y0: real, ghost target: Trip) returns (stop: bool, next: nat)
      requires world.Valid() && j < |path| && path == StepPath(x0, y0, sx, sy, |path|)
      requires x == Advance(x0, sx, j) && y == Advance(y0, sy, j)
      requires Flies(world.pixels, path, j, TraitsOf(), MotionOf(), rng.draws, rng.used) == target
      modifies this`x, this`y, this`vx, this`vy, this`bounceCount, this`dead, world`pixels, rng`used
      ensures world.Valid() && next == j + 1
      ensures x == Advance(x0, sx, next) && y == Advance(y0, sy, next)
      ensures !stop ==> Flies(world.pixels, path, next, TraitsOf(), MotionOf(), rng.draws, rng.used) == target
      ensures stop ==>
        target.entered == next && world.pixels == target.impact.cells &&
        rng.used == target.impact.used && MotionOf() == target.impact.motion
    {
      stop := SubStep(sx, sy, world, rng);
      next := j + 1;
    }

    /** One sub-step: move by (sx, sy), then collide with the pixel entered. */
    method SubStep(sx: real, sy: real, world: PhysicsWorld, rng: Rng) returns (stop: bool)
      requires world.Valid()
      modifies this`x, this`y, this`vx, this`vy, this`bounceCount, this`dead, world`pixels, rng`used
      ensures world.Valid() && x == old(x) + sx && y == old(y) + sy
      ensures var i := Collision(old(world.pixels), PixelOf(x), PixelOf(y), TraitsOf(), old(MotionOf()), rng.draws, old(rng.used));
        world.pixels == i.cells && rng.used == i.used && MotionOf() == i.motion && stop == i.stop
    {
      x := x + sx;
      y := y + sy;
      var px := (x / Config.PIXEL_SIZE as real).Floor;
      var py := (y / Config.PIXEL_SIZE as real).Floor;
      stop := Collide(world, rng, px, py);
    }

    /** `hits(entity)` for an entity at (ex, ey) of size esize. */
    function HitsEntity(ex: real, ey: real, esize: real): (b: bool)
      reads this
      ensures b ==> size + esize > 0.0
    {
      Hits(x, y, size, ex, ey, esize)
    }
  }
}
