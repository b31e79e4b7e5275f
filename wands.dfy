/**
 * Wands (src/wands.js): a wand holds spells and casts some of them per trigger pull, round-robin
 * or shuffled, paying their mana and then waiting out a cast delay, and a recharge once the
 * round-robin index wraps around.
 */
module Wands {
  import opened Common
  import opened Spells
  import opened Random

  /** The config object given to `new Wand(config)`; None is a property that is absent. */
  datatype WandConfig = WandConfig(
    name: Option<string>, castDelay: Option<real>, rechargeTime: Option<real>, maxMana: Option<real>,
    manaRecharge: Option<real>, spread: Option<real>, spellsPerCast: Option<int>, shuffle: bool,
    spells: Option<seq<Spell>>, alwaysCast: Option<seq<Spell>>)

  /**
   * What a cast hands to `new Projectile(x, y, vx, vy, spell, modifiers)`, up to the aiming
   * trigonometry: the velocity has length `speed` along the aim turned by `spread` degrees.
   */
  datatype Shot = Shot(spell: Spell, modifiers: seq<Spell>, speed: real, spread: real)

  /** The spells a cast selects, the spell index afterwards, and the next unused draw. */
  datatype Picked = Picked(chosen: seq<Spell>, index: int, used: nat)

  /**
   * The selection loop of `cast`, count times: a shuffled wand takes the spell at a random
   * index, any other takes spells[index] and advances the index modulo the number of spells.
   */
  function Choose(spells: seq<Spell>, shuffle: bool, index: int, count: int, d: Draws, k: nat): (p: Picked)
    requires 0 <= index < |spells|
    ensures 0 <= p.index < |spells|
    decreases count
  {
    if count <= 0 then Picked([], index, k)
    else if shuffle then
      var rest := Choose(spells, shuffle, index, count - 1, d, k + 1);
      Picked([spells[ScaledIndex(d(k), |spells|)]] + rest.chosen, rest.index, rest.used)
    else
      var rest := Choose(spells, shuffle, (index + 1) % |spells|, count - 1, d, k);
      Picked([spells[index]] + rest.chosen, rest.index, rest.used)
  }

  /** The spells of xs of the given type, in order: the partition loop of `cast`. */
  function OfKind(xs: seq<Spell>, kind: SpellType): seq<Spell>
    decreases |xs|
  {
    if xs == [] then []
    else OfKind(xs[..|xs| - 1], kind) + (if xs[|xs| - 1].kind == kind then [xs[|xs| - 1]] else [])
  }

  /** The total mana cost of xs, summed in order. */
  function Cost(xs: seq<Spell>): real
    decreases |xs|
  {
    if xs == [] then 0.0 else Cost(xs[..|xs| - 1]) + xs[|xs| - 1].manaCost
  }

  /**
   * The projectiles of a paid cast: one per projectile spell, the i-th turned by the spread
   * draw (draws(k + i) - 0.5) * spread; with no projectile spell, one MAGIC_ARROW launched at
   * speed 200 straight along the aim, taking no draw.
   */
  function Volley(ps: seq<Spell>, mods: seq<Spell>, spread: real, d: Draws, k: nat): seq<Shot> {
    if ps == [] then [Shot(MAGIC_ARROW, mods, 200.0, 0.0)]
    else seq(|ps|, i requires 0 <= i < |ps| => Shot(ps[i], mods, ps[i].speed, Deviation(d(k + i), spread)))
  }

  /** The spread offset of one shot: `(Math.random() - 0.5) * spread`. */
  function Deviation(r: Unit, spread: real): real {
    (r - 0.5) * spread
  }

  /**
   * Without shuffle, a cast of count spells takes them round-robin from the index, wrapping
   * around, draws nothing, and leaves the index count places further on.
   */
  lemma {:induction false} RoundRobin(spells: seq<Spell>, index: int, count: nat, d: Draws, k: nat)
    requires 0 <= index < |spells|
    ensures var p := Choose(spells, false, index, count, d, k);
      |p.chosen| == count && p.index == (index + count) % |spells| && p.used == k &&
      forall i :: 0 <= i < count ==> p.chosen[i] == spells[(index + i) % |spells|]
    decreases count
  {
    var n := |spells|;
    if count == 0 {
      ModUnique(index, n, 0, index);
    } else {
      var next := (index + 1) % n;
      var rest := Choose(spells, false, next, count - 1, d, k);
      var p := Choose(spells, false, index, count, d, k);
      assert p == Picked([spells[index]] + rest.chosen, rest.index, rest.used);
      RoundRobin(spells, next, count - 1, d, k);
      ModShift(index, count - 1, n);
      ModUnique(index, n, 0, index);
      forall i | 0 < i < count
        ensures p.chosen[i] == spells[(index + i) % n]
      {
        ModShift(index, i - 1, n);
        assert p.chosen[i] == rest.chosen[i - 1];
      }
    }
  }

  /** Advancing an index in [0, n) by one modulo n and then by b is advancing it by b + 1. */
  lemma ModShift(a: int, b: nat, n: int)
    requires 0 <= a < n
    ensures ((a + 1) % n + b) % n == (a + b + 1) % n
  {
    if a + 1 == n {
      ModUnique(a + 1, n, 1, 0);
      ModUnique(b + n, n, b / n + 1, b % n);
    } else {
      ModUnique(a + 1, n, 0, a + 1);
    }
  }

  /** The remainder is the unique r in [0, n) with x == q * n + r. */
  lemma ModUnique(x: int, n: int, q: int, r: int)
    requires n > 0 && 0 <= r < n && x == q * n + r
    ensures x % n == r
  {
    var q', r' := x / n, x % n;
    assert x == q' * n + r' && 0 <= r' < n;
    if q' > q {
      MulLeInt(q + 1, q', n);
      assert false;
    } else if q' < q {
      MulLeInt(q' + 1, q, n);
      assert false;
    }
  }

  lemma MulLeInt(a: int, b: int, n: int)
    requires a <= b && n > 0
    ensures a * n <= b * n
  {
  }

  /**
   * A shuffled cast of count spells takes draws k, k + 1, ... in turn, each choosing
   * spells[floor(r * |spells|)], and leaves the index where it was.
   */
  lemma {:induction false} Shuffled(spells: seq<Spell>, index: int, count: nat, d: Draws, k: nat)
    requires 0 <= index < |spells|
    ensures var p := Choose(spells, true, index, count, d, k);
      |p.chosen| == count && p.index == index && p.used == k + count &&
      forall i :: 0 <= i < count ==> p.chosen[i] == spells[ScaledIndex(d(k + i), |spells|)]
    decreases count
  {
    if count > 0 {
      Shuffled(spells, index, count - 1, d, k + 1);
      var p := Choose(spells, true, index, count, d, k);
      var rest := Choose(spells, true, index, count - 1, d, k + 1);
      forall i | 0 < i < count
        ensures p.chosen[i] == spells[ScaledIndex(d(k + i), |spells|)]
      {
        assert p.chosen[i] == rest.chosen[i - 1];
      }
    }
  }

  /**
   * The partition keeps exactly the spells of the type, in order: every spell of OfKind(xs,
   * kind) has that type and comes from xs, and every spell of xs of that type is kept.
   */
  lemma {:induction false} OfKindKeeps(xs: seq<Spell>, kind: SpellType)
    ensures forall s :: s in OfKind(xs, kind) <==> s in xs && s.kind == kind
    ensures |OfKind(xs, kind)| <= |xs|
    decreases |xs|
  {
    if xs != [] {
      var init := xs[..|xs| - 1];
      OfKindKeeps(init, kind);
      assert xs == init + [xs[|xs| - 1]];
    }
  }

  /** The cost of a concatenation is the sum of the costs: alwaysCast and the chosen spells both pay. */
  lemma {:induction false} CostAppend(a: seq<Spell>, b: seq<Spell>)
    ensures Cost(a + b) == Cost(a) + Cost(b)
    decreases |b|
  {
    if b != [] {
      var init, last := b[..|b| - 1], b[|b| - 1];
      assert (a + b)[..|a + b| - 1] == a + init;
      CostAppend(a, init);
      calc {
        Cost(a + b);
        Cost(a + init) + last.manaCost;
        Cost(a) + Cost(init) + last.manaCost;
        Cost(a) + Cost(b);
      }
    } else {
      assert a + b == a;
    }
  }

  /** With no spell of negative cost, a cast costs at least nothing. */
  lemma {:induction false} CostNonNegative(xs: seq<Spell>)
    requires forall s :: s in xs ==> s.manaCost >= 0.0
    ensures Cost(xs) >= 0.0
    decreases |xs|
  {
    if xs != [] {
      assert xs[|xs| - 1] in xs;
      CostNonNegative(xs[..|xs| - 1]);
    }
  }

  /**
   * A paid cast yields one shot per projectile spell, carrying all the modifiers, or a single
   * MAGIC_ARROW when there is none; the spread of a shot stays within half the wand's spread
   * either side of the aim.
   */
  lemma VolleyShape(ps: seq<Spell>, mods: seq<Spell>, spread: real, d: Draws, k: nat)
    requires spread >= 0.0
    ensures var v := Volley(ps, mods, spread, d, k);
      |v| == (if ps == [] then 1 else |ps|) &&
      (ps == [] ==> v[0].spell == MAGIC_ARROW && v[0].spread == 0.0) &&
      (forall i :: 0 <= i < |ps| ==> v[i].spell == ps[i] && v[i].speed == ps[i].speed) &&
      (forall i :: 0 <= i < |v| ==> v[i].modifiers == mods && -spread / 2.0 <= v[i].spread <= spread / 2.0)
  {
    var v := Volley(ps, mods, spread, d, k);
    forall i | 0 <= i < |ps|
      ensures -spread / 2.0 <= v[i].spread <= spread / 2.0
    {
      SpreadBound(d(k + i), spread);
    }
  }

  lemma SpreadBound(r: Unit, spread: real)
    requires spread >= 0.0
    ensures -spread / 2.0 <= Deviation(r, spread) <= spread / 2.0
  {
    var c := r - 0.5;
    assert -0.5 <= c < 0.5;
    if c >= 0.0 {
      Spells.MulMono(spread, c, 0.5);
    } else {
      Spells.MulMono(spread, -0.5, c);
    }
  }

  // ------------------------------------------------------------- the templates

  /** A config with only a name, spells and the numbers every template sets. */
  function Template(name: string, castDelay: real, rechargeTime: real, maxMana: real, manaRecharge: real,
                    spread: real, spells: seq<Spell>): WandConfig {
    WandConfig(Some(name), Some(castDelay), Some(rechargeTime), Some(maxMana), Some(manaRecharge),
      Some(spread), None, false, Some(spells), None)
  }

  const STARTER: WandConfig := Template("Starter Wand", 0.3, 1.0, 100.0, 20.0, 5.0, [MAGIC_ARROW])
  const RAPID: WandConfig := Template("Rapid Wand", 0.1, 0.5, 80.0, 30.0, 10.0, [MAGIC_ARROW, MAGIC_ARROW, MAGIC_ARROW])
  const EXPLOSIVE: WandConfig := Template("Explosion Wand", 0.5, 2.0, 150.0, 15.0, 3.0, [FIREBALL, EXPLOSION])
  const HOMING_WAND: WandConfig := Template("Homing Wand", 0.4, 1.5, 120.0, 18.0, 15.0, [ENERGY_ORB, HOMING, DAMAGE_PLUS])
  const CHAINSAW: WandConfig := Template("Chainsaw Wand", 0.05, 0.1, 200.0, 50.0, 2.0, [MAGIC_ARROW, RAPID_FIRE]).(
    alwaysCast := Some([SPEED_PLUS]))
  const ELEMENTAL: WandConfig := Template("Elemental Wand", 0.35, 1.2, 130.0, 22.0, 8.0,
    [FIREBALL, WATER_BOLT, LIGHTNING_BOLT, ACID_BALL]).(shuffle := true)

  /** `Object.values(WAND_TEMPLATES)`, in declaration order. */
  const WAND_TEMPLATES: seq<WandConfig> := [STARTER, RAPID, EXPLOSIVE, HOMING_WAND, CHAINSAW, ELEMENTAL]

  class Wand {
    var name: string
    var castDelay: real
    var rechargeTime: real
    var maxMana: real
    var manaRecharge: real
    var spread: real
    var spellsPerCast: int
    var shuffle: bool
    var spells: seq<Spell>
    var alwaysCast: seq<Spell>
    var currentMana: real
    var castTimer: real
    var rechargeTimer: real
    var spellIndex: int

    /**
     * The spell index points into the spells (or is 0 when there are none), and every setting
     * has been through the constructor's fallbacks, so none of them is falsy.
     */
    predicate Valid()
      reads this`spellIndex, this`spells, this`name, this`castDelay, this`rechargeTime, this`maxMana,
        this`manaRecharge, this`spread, this`spellsPerCast
    {
      0 <= spellIndex && (spellIndex < |spells| || spellIndex == 0) &&
      name != "" && castDelay != 0.0 && rechargeTime != 0.0 && maxMana != 0.0 && manaRecharge != 0.0 &&
      spread != 0.0 && spellsPerCast != 0
    }

    /** `new Wand(config)`: every setting given as absent or falsy takes its fallback; mana starts full. */
    constructor (c: WandConfig)
      ensures Valid()
      ensures name == OrString(c.name, "Wand") && castDelay == OrReal(c.castDelay, 0.3)
      ensures rechargeTime == OrReal(c.rechargeTime, 1.0) && maxMana == OrReal(c.maxMana, 100.0)
      ensures manaRecharge == OrReal(c.manaRecharge, 20.0) && spread == OrReal(c.spread, 5.0)
      ensures spellsPerCast == OrInt(c.spellsPerCast, 1) && shuffle == c.shuffle
      ensures spells == (if c.spells.Some? then c.spells.value else [])
      ensures alwaysCast == (if c.alwaysCast.Some? then c.alwaysCast.value else [])
      ensures currentMana == maxMana && castTimer == 0.0 && rechargeTimer == 0.0 && spellIndex == 0
    {
      name := OrString(c.name, "Wand");
      castDelay := OrReal(c.castDelay, 0.3);
      rechargeTime := OrReal(c.rechargeTime, 1.0);
      maxMana := OrReal(c.maxMana, 100.0);
      manaRecharge := OrReal(c.manaRecharge, 20.0);
      spread := OrReal(c.spread, 5.0);
      spellsPerCast := OrInt(c.spellsPerCast, 1);
      shuffle := c.shuffle;
      spells := if c.spells.Some? then c.spells.value else [];
      alwaysCast := if c.alwaysCast.Some? then c.alwaysCast.value else [];
      currentMana := OrReal(c.maxMana, 100.0);
      castTimer := 0.0;
      rechargeTimer := 0.0;
      spellIndex := 0;
    }

    /** The settings of this wand as a config, the object `clone` passes to the constructor. */
    function Settings(): WandConfig
      reads this
    {
      WandConfig(Some(name), Some(castDelay), Some(rechargeTime), Some(maxMana), Some(manaRecharge),
        Some(spread), Some(spellsPerCast), shuffle, Some(spells), Some(alwaysCast))
    }

    /**
     * `update(dt)`: mana below the maximum recharges by manaRecharge * dt, capped at the maximum
     * (mana at or above it is left alone); each timer counts down by dt only while positive.
     */
    method Update(dt: real)
      modifies this`currentMana, this`castTimer, this`rechargeTimer
      ensures old(currentMana) < maxMana ==> currentMana == Min(maxMana, old(currentMana) + manaRecharge * dt)
      ensures old(currentMana) >= maxMana ==> currentMana == old(currentMana)
      ensures currentMana <= maxMana || currentMana == old(currentMana)
      ensures castTimer == if old(castTimer) > 0.0 then old(castTimer) - dt else old(castTimer)
      ensures rechargeTimer == if old(rechargeTimer) > 0.0 then old(rechargeTimer) - dt else old(rechargeTimer)
    {
      if currentMana < maxMana {
        currentMana := Min(maxMana, currentMana + manaRecharge * dt);
      }
      if castTimer > 0.0 {
        castTimer := castTimer - dt;
      }
      if rechargeTimer > 0.0 {
        rechargeTimer := rechargeTimer - dt;
      }
    }

    /** `canCast()`: both timers have run out and the wand holds a spell. */
    predicate CanCast()
      reads this`castTimer, this`rechargeTimer, this`spells
    {
      castTimer <= 0.0 && rechargeTimer <= 0.0 && |spells| > 0
    }

    /**
     * `cast(x, y, targetX, targetY)`. When the wand cannot cast, nothing happens. Otherwise the
     * selection always runs (and advances the round-robin index); if the mana does not cover
     * alwaysCast followed by the chosen spells, nothing else happens. A paid cast takes exactly
     * that cost, yields the volley of its projectile spells carrying its modifiers, restarts the
     * cast delay, and restarts the recharge exactly when an unshuffled wand's index is back at 0.
     */
    method Cast(rng: Rng) returns (shots: seq<Shot>)
      requires Valid()
      modifies this`currentMana, this`castTimer, this`rechargeTimer, this`spellIndex, rng`used
      ensures Valid()
      ensures !old(CanCast()) ==>
        shots == [] && currentMana == old(currentMana) && castTimer == old(castTimer) &&
        rechargeTimer == old(rechargeTimer) && spellIndex == old(spellIndex) && rng.used == old(rng.used)
      ensures old(CanCast()) ==> spellIndex == old(Selection(rng.draws, rng.used)).index
      ensures old(CanCast()) && old(currentMana) < Cost(old(CastList(rng.draws, rng.used))) ==>
        shots == [] && rng.used == old(Selection(rng.draws, rng.used)).used && currentMana == old(currentMana) &&
        castTimer == old(castTimer) && rechargeTimer == old(rechargeTimer)
      ensures old(CanCast()) && old(currentMana) >= Cost(old(CastList(rng.draws, rng.used))) ==>
        var cast, k := old(CastList(rng.draws, rng.used)), old(Selection(rng.draws, rng.used)).used;
        shots == Volley(OfKind(cast, ProjectileType), OfKind(cast, ModifierType), spread, rng.draws, k) &&
        rng.used == k + |OfKind(cast, ProjectileType)| &&
        currentMana == old(currentMana) - Cost(cast) && currentMana >= 0.0
      ensures old(CanCast()) && old(currentMana) >= Cost(old(CastList(rng.draws, rng.used))) ==>
        castTimer == castDelay &&
        rechargeTimer == (if !shuffle && spellIndex == 0 then rechargeTime else old(rechargeTimer))
    {
      if !CanCast() {
        return [];
      }
      ghost var p := Selection(rng.draws, rng.used);
      var chosen := SelectSpells(rng);
      assert chosen == p.chosen && spellIndex == p.index && rng.used == p.used;
      shots := Discharge(alwaysCast + chosen, rng);
    }

    /**
     * The rest of `cast` once the spells are chosen, on the list cast of alwaysCast followed by
     * them: the partition, the mana check, and for a paid cast the payment, the volley and the
     * cooldowns.
     */
    method Discharge(cast: seq<Spell>, rng: Rng) returns (shots: seq<Shot>)
      modifies this`currentMana, this`castTimer, this`rechargeTimer, rng`used
      ensures old(currentMana) < Cost(cast) ==>
        shots == [] && currentMana == old(currentMana) && castTimer == old(castTimer) &&
        rechargeTimer == old(rechargeTimer) && rng.used == old(rng.used)
      ensures old(currentMana) >= Cost(cast) ==>
        shots == Volley(OfKind(cast, ProjectileType), OfKind(cast, ModifierType), spread, rng.draws, old(rng.used)) &&
        rng.used == old(rng.used) + |OfKind(cast, ProjectileType)| &&
        currentMana == old(currentMana) - Cost(cast) && castTimer == castDelay &&
        rechargeTimer == (if !shuffle && spellIndex == 0 then rechargeTime else old(rechargeTimer))
    {
      var projectiles, modifiers, totalManaCost := Partition(cast);
      if currentMana < totalManaCost {
        return [];
      }
      currentMana := currentMana - totalManaCost;
      shots := Aim(projectiles, modifiers, rng);
      castTimer := castDelay;
      if !shuffle && spellIndex == 0 {
        rechargeTimer := rechargeTime;
      }
    }

    /** What the selection loop of `cast` picks with draws from k on. */
    ghost function Selection(d: Draws, k: nat): Picked
      reads this`spellIndex, this`spells, this`name, this`castDelay, this`rechargeTime, this`maxMana,
        this`manaRecharge, this`spread, this`spellsPerCast, this`shuffle, this`alwaysCast
      requires Valid() && |spells| > 0
    {
      Choose(spells, shuffle, spellIndex, spellsPerCast, d, k)
    }

    /** The list a cast pays for and partitions: alwaysCast, then the selected spells. */
    ghost function CastList(d: Draws, k: nat): seq<Spell>
      reads this`spellIndex, this`spells, this`name, this`castDelay, this`rechargeTime, this`maxMana,
        this`manaRecharge, this`spread, this`spellsPerCast, this`shuffle, this`alwaysCast
      requires Valid() && |spells| > 0
    {
      alwaysCast + Selection(d, k).chosen
    }

    /** The selection loop of `cast`. */
    method SelectSpells(rng: Rng) returns (chosen: seq<Spell>)
      requires Valid() && |spells| > 0
      modifies this`spellIndex, rng`used
      ensures Valid()
      ensures var p := Choose(spells, shuffle, old(spellIndex), spellsPerCast, rng.draws, old(rng.used));
        chosen == p.chosen && spellIndex == p.index && rng.used == p.used
    {
      ghost var target := Choose(spells, shuffle, spellIndex, spellsPerCast, rng.draws, rng.used);
      chosen := [];
      var i := 0;
      while i < spellsPerCast
        invariant Valid() && 0 <= spellIndex < |spells|
        invariant Selecting(chosen, spellsPerCast - i, rng, target)
        decreases spellsPerCast - i
      {
        chosen := SelectOne(chosen, spellsPerCast - i, rng, target);
        i := i + 1;
      }
    }

    /**
     * Selection has produced chosen so far, and the remaining left turns from the present index
     * and draw complete target.
     */
    ghost predicate Selecting(chosen: seq<Spell>, left: int, rng: Rng, target: Picked)
      reads this, rng
      requires 0 <= spellIndex < |spells|
    {
      var rest := Choose(spells, shuffle, spellIndex, left, rng.draws, rng.used);
      chosen + rest.chosen == target.chosen && rest.index == target.index && rest.used == target.used
    }

    /** One turn of the selection loop: a random spell when shuffled, else the next in turn. */
    method SelectOne(chosen: seq<Spell>, ghost left: int, rng: Rng, ghost target: Picked) returns (more: seq<Spell>)
      requires Valid() && 0 <= spellIndex < |spells| && left > 0 && Selecting(chosen, left, rng, target)
      modifies this`spellIndex, rng`used
      ensures Valid() && 0 <= spellIndex < |spells| && Selecting(more, left - 1, rng, target)
    {
      ghost var rest := Choose(spells, shuffle, spellIndex, left, rng.draws, rng.used);
      if shuffle {
        var r := rng.Next();
        more := chosen + [spells[ScaledIndex(r, |spells|)]];
      } else {
        more := chosen + [spells[spellIndex]];
        spellIndex := (spellIndex + 1) % |spells|;
      }
      assert more + Choose(spells, shuffle, spellIndex, left - 1, rng.draws, rng.used).chosen == chosen + rest.chosen;
    }

    /**
     * The partition loop of `cast` over the cast list: projectile spells and modifier spells in
     * order (utility spells go to neither), and the mana cost of every spell of the list.
     */
    static method Partition(cast: seq<Spell>) returns (projectiles: seq<Spell>, modifiers: seq<Spell>, cost: real)
      ensures projectiles == OfKind(cast, ProjectileType) && modifiers == OfKind(cast, ModifierType)
      ensures cost == Cost(cast)
    {
      projectiles, modifiers, cost := [], [], 0.0;
      for j := 0 to |cast|
        invariant projectiles == OfKind(cast[..j], ProjectileType) && modifiers == OfKind(cast[..j], ModifierType)
        invariant cost == Cost(cast[..j])
      {
        var spell := cast[j];
        assert cast[..j + 1][..j] == cast[..j];
        if spell.kind == ProjectileType {
          projectiles := projectiles + [spell];
        } else if spell.kind == ModifierType {
          modifiers := modifiers + [spell];
        }
        cost := cost + spell.manaCost;
      }
      assert cast[..|cast|] == cast;
    }

    /** The projectile loop of `cast`, one spread draw per projectile spell, and the MAGIC_ARROW fallback. */
    method Aim(ps: seq<Spell>, mods: seq<Spell>, rng: Rng) returns (shots: seq<Shot>)
      modifies rng`used
      ensures shots == Volley(ps, mods, spread, rng.draws, old(rng.used)) && rng.used == old(rng.used) + |ps|
    {
      shots := [];
      for i := 0 to |ps|
        invariant rng.used == old(rng.used) + i && |shots| == i
        invariant forall j :: 0 <= j < i ==>
          shots[j] == Shot(ps[j], mods, ps[j].speed, Deviation(rng.draws(old(rng.used) + j), spread))
      {
        var r := rng.Next();
        shots := shots + [Shot(ps[i], mods, ps[i].speed, Deviation(r, spread))];
      }
      if |shots| == 0 {
        shots := [Shot(MAGIC_ARROW, mods, 200.0, 0.0)];
      } else {
        ghost var v := Volley(ps, mods, spread, rng.draws, old(rng.used));
        assert |v| == |shots|;
        assert forall j :: 0 <= j < |ps| ==> v[j] == shots[j];
        assert shots == v;
      }
    }

    /**
     * `clone()`: a new wand built from this wand's settings. Since they have been through the
     * fallbacks already, it has the same settings and its own copies of the spell lists, with
     * full mana, no timers running and the index at 0.
     */
    method Clone() returns (w: Wand)
      requires Valid()
      ensures fresh(w) && w.Valid()
      ensures w.name == name && w.castDelay == castDelay && w.rechargeTime == rechargeTime
      ensures w.maxMana == maxMana && w.manaRecharge == manaRecharge && w.spread == spread
      ensures w.spellsPerCast == spellsPerCast && w.shuffle == shuffle
      ensures w.spells == spells && w.alwaysCast == alwaysCast
      ensures w.currentMana == maxMana && w.castTimer == 0.0 && w.rechargeTimer == 0.0 && w.spellIndex == 0
    {
      w := new Wand(Settings());
    }
  }

  /** `generateRandomWand()`: a clone of a template chosen by one draw. */
  method GenerateRandomWand(rng: Rng) returns (w: Wand)
    modifies rng`used
    ensures fresh(w) && w.Valid() && rng.used == old(rng.used) + 1
    ensures var t := WAND_TEMPLATES[ScaledIndex(rng.draws(old(rng.used)), |WAND_TEMPLATES|)];
      w.name == OrString(t.name, "Wand") && w.castDelay == OrReal(t.castDelay, 0.3) &&
      w.rechargeTime == OrReal(t.rechargeTime, 1.0) && w.maxMana == OrReal(t.maxMana, 100.0) &&
      w.manaRecharge == OrReal(t.manaRecharge, 20.0) && w.spread == OrReal(t.spread, 5.0) &&
      w.spellsPerCast == OrInt(t.spellsPerCast, 1) && w.shuffle == t.shuffle &&
      w.spells == (if t.spells.Some? then t.spells.value else []) &&
      w.alwaysCast == (if t.alwaysCast.Some? then t.alwaysCast.value else [])
    ensures w.currentMana == w.maxMana && w.castTimer == 0.0 && w.rechargeTimer == 0.0 && w.spellIndex == 0
  {
    var r := rng.Next();
    var template := new Wand(WAND_TEMPLATES[ScaledIndex(r, |WAND_TEMPLATES|)]);
    w := template.Clone();
  }

  /** Every template casts one spell at a time from a non-empty list, and only ELEMENTAL shuffles. */
  lemma TemplatesCast()
    ensures forall t :: t in WAND_TEMPLATES ==> t.spells.Some? && |t.spells.value| > 0 && t.spellsPerCast.None?
    ensures forall i :: 0 <= i < |WAND_TEMPLATES| ==> (WAND_TEMPLATES[i].shuffle <==> i == 5)
  {
  }
}
