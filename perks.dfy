/**
 * Perks (src/perks.js): twelve one-off upgrades, each an effect on the player's fields, and the
 * draw of a few distinct perks to offer. The effects are functions on the fields they touch; the
 * player's `addPerk` (player.dfy) performs them in place.
 */
module Perks {
  import opened Common
  import opened Random

  datatype PerkKind =
    | ExtraHp | ExplosionImmunity | Vampirism | Greed | ManaBoost | FastMovement
    | SavingGrace | FireImmunity | Electricity | ProjectileRepulsion | ExtraLife | CriticalChance

  /** A `Perk`: its name and description, and which `apply` closure it carries. */
  datatype Perk = Perk(name: string, description: string, kind: PerkKind)

  const EXTRA_HP: Perk := Perk("Extra HP", "Increases max health by 50", ExtraHp)
  const EXPLOSION_IMMUNITY: Perk := Perk("Explosion Immunity", "Take no damage from explosions", ExplosionImmunity)
  const VAMPIRISM: Perk := Perk("Vampirism", "Heal 5 HP when killing enemies", Vampirism)
  const GREED: Perk := Perk("Greed", "Double gold from enemies", Greed)
  const MANA_BOOST: Perk := Perk("Mana Boost", "Increase mana regeneration by 50%", ManaBoost)
  const FAST_MOVEMENT: Perk := Perk("Fast Movement", "Increase movement speed by 30%", FastMovement)
  const SAVING_GRACE: Perk := Perk("Saving Grace", "Survive one fatal hit (once)", SavingGrace)
  const FIRE_IMMUNITY: Perk := Perk("Fire Immunity", "Take no damage from fire", FireImmunity)
  const ELECTRICITY: Perk := Perk("Electricity", "Emit electricity when moving", Electricity)
  const PROJECTILE_REPULSION: Perk := Perk("Projectile Repulsion", "Enemy projectiles are slower near you", ProjectileRepulsion)
  const EXTRA_LIFE: Perk := Perk("Extra Life", "Resurrect once with 50% HP", ExtraLife)
  const CRITICAL_CHANCE: Perk := Perk("Critical Hit", "20% chance for double damage", CriticalChance)

  /** `Object.values(PERKS)`, in declaration order. */
  const PERKS: seq<Perk> := [EXTRA_HP, EXPLOSION_IMMUNITY, VAMPIRISM, GREED, MANA_BOOST, FAST_MOVEMENT,
    SAVING_GRACE, FIRE_IMMUNITY, ELECTRICITY, PROJECTILE_REPULSION, EXTRA_LIFE, CRITICAL_CHANCE]

  /** The player fields some perk changes. */
  datatype Stats = Stats(
    maxHp: real, hp: real, explosionImmune: bool, vampirism: bool, goldMultiplier: real,
    manaRegen: real, speed: real, savingGrace: bool, fireImmune: bool, electricAura: bool,
    projectileRepulsion: bool, extraLives: int, critChance: real)

  /** The `apply` closure of each perk. */
  function Apply(kind: PerkKind, s: Stats): Stats {
    match kind
    case ExtraHp => s.(maxHp := s.maxHp + 50.0, hp := s.hp + 50.0)
    case ExplosionImmunity => s.(explosionImmune := true)
    case Vampirism => s.(vampirism := true)
    case Greed => s.(goldMultiplier := s.goldMultiplier * 2.0)
    case ManaBoost => s.(manaRegen := s.manaRegen * 1.5)
    case FastMovement => s.(speed := s.speed * 1.3)
    case SavingGrace => s.(savingGrace := true)
    case FireImmunity => s.(fireImmune := true)
    case Electricity => s.(electricAura := true)
    case ProjectileRepulsion => s.(projectileRepulsion := true)
    case ExtraLife => s.(extraLives := s.extraLives + 1)
    case CriticalChance => s.(critChance := 0.2)
  }

  /** The same perk applied n times in a row. */
  function ApplyTimes(kind: PerkKind, n: nat, s: Stats): Stats
    decreases n
  {
    if n == 0 then s else Apply(kind, ApplyTimes(kind, n - 1, s))
  }

  function Pow2(n: nat): real {
    if n == 0 then 1.0 else 2.0 * Pow2(n - 1)
  }

  /** The perks that only set a field to a constant. */
  predicate IsFlag(kind: PerkKind) {
    kind in {ExplosionImmunity, Vampirism, SavingGrace, FireImmunity, Electricity, ProjectileRepulsion, CriticalChance}
  }

  // ------------------------------------------------------------- getRandomPerks

  /** `available.splice(i, 1)`: the list without its i-th entry. */
  function Remove(xs: seq<Perk>, i: int): (r: seq<Perk>)
    requires 0 <= i < |xs|
    ensures |r| == |xs| - 1
  {
    xs[..i] + xs[i + 1..]
  }

  /** Splicing out the i-th entry removes exactly one occurrence of that perk. */
  lemma RemoveOne(xs: seq<Perk>, i: int)
    requires 0 <= i < |xs|
    ensures multiset(Remove(xs, i)) + multiset{xs[i]} == multiset(xs)
  {
    assert xs == xs[..i] + [xs[i]] + xs[i + 1..];
  }

  /** The number of draws the selection loop takes: one per perk it selects. */
  function PickDraws(available: seq<Perk>, count: int): nat {
    if count <= 0 then 0 else if count <= |available| then count else |available|
  }

  /**
   * The selection loop of `getRandomPerks` over the list `available`, count turns at most: each
   * turn one draw picks an index of what is left, and that perk is taken out. It takes
   * min(count, |available|) perks, none for count <= 0.
   */
  function Pick(available: seq<Perk>, count: int, d: Draws, k: nat): (r: seq<Perk>)
    ensures |r| == PickDraws(available, count)
    decreases |available|
  {
    if count <= 0 || available == [] then []
    else
      var i := ScaledIndex(d(k), |available|);
      [available[i]] + Pick(Remove(available, i), count - 1, d, k + 1)
  }

  /**
   * The perks selected are each taken from `available`, and together they are part of it: no
   * perk is offered twice unless it was listed twice.
   */
  lemma {:induction false} PickPart(available: seq<Perk>, count: int, d: Draws, k: nat)
    ensures multiset(Pick(available, count, d, k)) <= multiset(available)
    decreases |available|
  {
    if count > 0 && available != [] {
      var i := ScaledIndex(d(k), |available|);
      var rest := Remove(available, i);
      PickPart(rest, count - 1, d, k + 1);
      RemoveOne(available, i);
      ConsPart(available[i], Pick(rest, count - 1, d, k + 1), rest, available);
    }
  }

  /** Putting x in front of part of rest gives part of a list that is rest with x added. */
  lemma ConsPart(x: Perk, t: seq<Perk>, rest: seq<Perk>, xs: seq<Perk>)
    requires multiset(t) <= multiset(rest) && multiset(rest) + multiset{x} == multiset(xs)
    ensures multiset([x] + t) <= multiset(xs)
  {
    assert multiset([x] + t) == multiset{x} + multiset(t);
  }

  /** No perk occurs twice in xs. */
  predicate Distinct(xs: seq<Perk>) {
    forall i, j :: 0 <= i < j < |xs| ==> xs[i] != xs[j]
  }

  /** One turn of the selection: the perk at the drawn index, then the selection from the rest. */
  lemma PickStep(available: seq<Perk>, count: int, d: Draws, k: nat)
    requires count > 0 && available != []
    ensures var i := ScaledIndex(d(k), |available|);
      Pick(available, count, d, k) == [available[i]] + Pick(Remove(available, i), count - 1, d, k + 1)
  {
  }

  /** Every perk of a list that is part of another is a perk of that other list. */
  lemma SubMembers(r: seq<Perk>, xs: seq<Perk>)
    requires multiset(r) <= multiset(xs)
    ensures forall p :: p in r ==> p in xs
  {
    forall p | p in r
      ensures p in xs
    {
      assert multiset(r)[p] > 0;
    }
  }

  /** A list that is part of a list without repetitions has no repetitions either. */
  lemma SubDistinct(r: seq<Perk>, xs: seq<Perk>)
    requires multiset(r) <= multiset(xs) && Distinct(xs)
    ensures Distinct(r)
  {
    forall i, j | 0 <= i < j < |r|
      ensures r[i] != r[j]
    {
      if r[i] == r[j] {
        var p := r[i];
        assert r == r[..j] + [p] + r[j + 1..];
        assert p in r[..j];
        assert multiset(r)[p] >= 2;
        OnceInDistinct(xs, p);
        assert false;
      }
    }
  }

  /** In a list without repetitions every perk occurs at most once. */
  lemma {:induction false} OnceInDistinct(xs: seq<Perk>, p: Perk)
    requires Distinct(xs)
    ensures multiset(xs)[p] <= 1
    decreases |xs|
  {
    if xs != [] {
      var rest := xs[1..];
      assert xs == [xs[0]] + rest;
      OnceInDistinct(rest, p);
      if xs[0] == p {
        assert p !in rest;
      }
    }
  }

  lemma PerksDistinct()
    ensures |PERKS| == 12 && Distinct(PERKS)
  {
  }

  /**
   * `getRandomPerks(count)` offers min(count, 12) perks (none for count <= 0), every one of
   * them a perk of PERKS, and no perk twice.
   */
  lemma RandomPerksSpec(count: int, d: Draws, k: nat)
    ensures var r := Pick(PERKS, count, d, k);
      |r| == (if count <= 0 then 0 else if count <= 12 then count else 12) &&
      (forall p :: p in r ==> p in PERKS) && Distinct(r)
  {
    PerksDistinct();
    PickPart(PERKS, count, d, k);
    SubMembers(Pick(PERKS, count, d, k), PERKS);
    SubDistinct(Pick(PERKS, count, d, k), PERKS);
  }

  /**
   * `getRandomPerks(count)`: the perks selected, and the draws taken, are those of Pick over
   * PERKS, so RandomPerksSpec describes them.
   */
  method GetRandomPerks(rng: Rng, count: int := 3) returns (selected: seq<Perk>)
    modifies rng`used
    ensures selected == Pick(PERKS, count, rng.draws, old(rng.used))
    ensures rng.used == old(rng.used) + PickDraws(PERKS, count)
  {
    selected := Select(PERKS, count, rng);
  }

  /** The loop of `getRandomPerks`, splicing each pick out of `available`. */
  method Select(all: seq<Perk>, count: int, rng: Rng) returns (selected: seq<Perk>)
    modifies rng`used
    ensures selected == Pick(all, count, rng.draws, old(rng.used))
    ensures rng.used == old(rng.used) + PickDraws(all, count)
  {
    ghost var k0 := rng.used;
    ghost var target := Pick(all, count, rng.draws, k0);
    selected := [];
    var available := all;
    var i := 0;
    while i < count && |available| > 0
      invariant selected + Pick(available, count - i, rng.draws, rng.used) == target
      invariant |selected| == i && |available| + i == |all| && rng.used == k0 + i
      invariant 0 <= i && (count <= 0 ==> i == 0) && (count > 0 ==> i <= count)
      decreases |available|
    {
      selected, available := SpliceOne(selected, available, count - i, rng, target);
      i := i + 1;
    }
    SelectDone(all, available, count, i, rng.draws, rng.used);
  }

  /** When the selection loop stops it has taken one draw per perk Pick selects, and Pick has no more. */
  lemma SelectDone(all: seq<Perk>, available: seq<Perk>, count: int, i: int, d: Draws, k: nat)
    requires !(i < count && |available| > 0) && |available| + i == |all|
    requires 0 <= i && (count <= 0 ==> i == 0) && (count > 0 ==> i <= count)
    ensures i == PickDraws(all, count) && Pick(available, count - i, d, k) == []
  {
  }

  /**
   * One turn of the loop of `getRandomPerks`: one draw picks an index of `available`, and that perk
   * moves from `available` to the end of `selected`.
   */
  method SpliceOne(selected: seq<Perk>, available: seq<Perk>, ghost left: int, rng: Rng, ghost target: seq<Perk>)
    returns (selected': seq<Perk>, available': seq<Perk>)
    requires left > 0 && available != []
    requires selected + Pick(available, left, rng.draws, rng.used) == target
    modifies rng`used
    ensures rng.used == old(rng.used) + 1
    ensures |selected'| == |selected| + 1 && |available'| == |available| - 1
    ensures selected' + Pick(available', left - 1, rng.draws, rng.used) == target
  {
    PickStep(available, left, rng.draws, rng.used);
    var r := rng.Next();
    var index := ScaledIndex(r, |available|);
    selected' := selected + [available[index]];
    available' := Remove(available, index);
    assert selected + ([available[index]] + Pick(available', left - 1, rng.draws, rng.used)) ==
      selected' + Pick(available', left - 1, rng.draws, rng.used);
  }

  // ------------------------------------------------------------- properties of the effects

  /** EXTRA_HP raises the maximum and the current health by 50 each and changes nothing else. */
  lemma ExtraHpRaisesBoth(s: Stats)
    ensures var r := Apply(ExtraHp, s);
      r.maxHp == s.maxHp + 50.0 && r.hp == s.hp + 50.0 && r.maxHp - r.hp == s.maxHp - s.hp &&
      r.(maxHp := s.maxHp, hp := s.hp) == s
  {
  }

  /** n GREED perks multiply the gold multiplier by 2^n. */
  lemma {:induction false} GreedCompounds(n: nat, s: Stats)
    ensures ApplyTimes(Greed, n, s).goldMultiplier == s.goldMultiplier * Pow2(n)
    ensures ApplyTimes(Greed, n, s).(goldMultiplier := s.goldMultiplier) == s
    decreases n
  {
    if n > 0 {
      GreedCompounds(n - 1, s);
    }
  }

  /** n EXTRA_LIFE perks add n extra lives. */
  lemma {:induction false} ExtraLivesAdd(n: nat, s: Stats)
    ensures ApplyTimes(ExtraLife, n, s).extraLives == s.extraLives + n
    ensures ApplyTimes(ExtraLife, n, s).(extraLives := s.extraLives) == s
    decreases n
  {
    if n > 0 {
      ExtraLivesAdd(n - 1, s);
    }
  }

  /** A flag perk taken a second time changes nothing; the others always change their field. */
  lemma FlagPerksIdempotent(kind: PerkKind, s: Stats)
    ensures IsFlag(kind) ==> Apply(kind, Apply(kind, s)) == Apply(kind, s)
    ensures kind == ExtraHp || kind == ExtraLife ==> Apply(kind, Apply(kind, s)) != Apply(kind, s)
  {
  }
}
