/**
 * The player (src/player.js): health guarded by invincibility frames and the two life-saving
 * perks, status effects kept by name in insertion order, the reaction to the cell the player
 * stands in, mana, gold, kills, wands and perks.
 *
 * Each step the source takes in place on the player's fields is a function here on the values it
 * reads and writes (Damage, Environment, Tick, Frame, ...); class Player performs those steps on
 * its fields and is proved to leave them as the functions say.
 */
module Character {
  import opened Common
  import opened Config
  import opened Materials
  import opened Grid
  import opened Random
  import Wands
  import Spells
  import Physics
  import Perks

  // ------------------------------------------------------------- health

  /** The fields `takeDamage` reads and writes. */
  datatype Vitals = Vitals(hp: real, maxHp: real, iframeTimer: real, savingGrace: bool, extraLives: int)

  /**
   * `takeDamage(amount)`: nothing while the invincibility timer runs; otherwise the hit lands and
   * restarts the timer, then a fatal hit is turned into 1 HP by saving grace (used up), and a hit
   * still fatal after that costs an extra life and restores half the maximum.
   */
  function Damage(v: Vitals, amount: real): Vitals {
    if v.iframeTimer > 0.0 then v
    else
      var hit := v.(hp := v.hp - amount, iframeTimer := IFRAME_DURATION);
      var graced := if hit.hp <= 0.0 && hit.savingGrace then hit.(hp := 1.0, savingGrace := false) else hit;
      if graced.hp <= 0.0 && graced.extraLives > 0 then
        graced.(hp := graced.maxHp * 0.5, extraLives := graced.extraLives - 1)
      else graced
  }

  /** `isDead()`. */
  predicate Dead(v: Vitals) {
    v.hp <= 0.0
  }

  /**
   * A hit that lands restarts the invincibility timer and leaves the maximum alone. A survivable
   * hit only lowers hp; a fatal one is absorbed by saving grace first, by an extra life only when
   * there is no grace left; and the player dies exactly when neither saves them.
   */
  lemma DamageOutcome(v: Vitals, amount: real)
    requires v.iframeTimer <= 0.0
    ensures var r := Damage(v, amount);
      r.iframeTimer == IFRAME_DURATION && r.maxHp == v.maxHp &&
      (v.hp - amount > 0.0 ==> r == v.(hp := v.hp - amount, iframeTimer := IFRAME_DURATION)) &&
      (v.hp - amount <= 0.0 && v.savingGrace ==>
        r == v.(hp := 1.0, iframeTimer := IFRAME_DURATION, savingGrace := false)) &&
      (v.hp - amount <= 0.0 && !v.savingGrace && v.extraLives > 0 ==>
        r == v.(hp := v.maxHp * 0.5, iframeTimer := IFRAME_DURATION, extraLives := v.extraLives - 1)) &&
      (Dead(r) <==> v.hp - amount <= 0.0 && !v.savingGrace && (v.extraLives <= 0 || v.maxHp <= 0.0))
  {
  }

  /** While the timer runs every hit is ignored, so a second hit right after a first changes nothing. */
  lemma IframesAbsorb(v: Vitals, a: real, b: real)
    ensures v.iframeTimer > 0.0 ==> Damage(v, a) == v
    ensures Damage(Damage(v, a), b) == Damage(v, a)
  {
  }

  /** A non-negative hit never lifts hp above the maximum (of at least 1). */
  lemma DamageKeepsCap(v: Vitals, amount: real)
    requires amount >= 0.0 && v.hp <= v.maxHp && v.maxHp >= 1.0
    ensures Damage(v, amount).hp <= Damage(v, amount).maxHp
  {
  }

  /** `heal(amount)`: hp rises by amount but not past the maximum. */
  function Healed(hp: real, maxHp: real, amount: real): real {
    Min(maxHp, hp + amount)
  }

  lemma HealCaps(hp: real, maxHp: real, amount: real)
    ensures Healed(hp, maxHp, amount) <= maxHp
    ensures hp + amount <= maxHp ==> Healed(hp, maxHp, amount) == hp + amount
    ensures hp + amount >= maxHp ==> Healed(hp, maxHp, amount) == maxHp
    ensures amount >= 0.0 && hp <= maxHp ==> hp <= Healed(hp, maxHp, amount)
  {
  }

  /** `addGold(amount)`: the amount scaled by the gold multiplier, rounded down. */
  function GoldGain(amount: real, multiplier: real): int {
    (amount * multiplier).Floor
  }

  /** The gain is the scaled amount less its fraction; with GREED taken n times, 2^n times the drop. */
  lemma GoldGainSpec(amount: int, n: nat)
    ensures var m := Perks.Pow2(n); GoldGain(amount as real, m) as real <= amount as real * m < GoldGain(amount as real, m) as real + 1.0
    ensures GoldGain(amount as real, Perks.Pow2(n)) == amount * Pow2Int(n)
  {
    Pow2Agree(n);
  }

  function Pow2Int(n: nat): int {
    if n == 0 then 1 else 2 * Pow2Int(n - 1)
  }

  lemma {:induction false} Pow2Agree(n: nat)
    ensures Perks.Pow2(n) == Pow2Int(n) as real
  {
    if n > 0 {
      Pow2Agree(n - 1);
    }
  }

  /** `manaRegen`: mana below the maximum grows by regen * dt, capped there; otherwise it stays. */
  function Regen(mana: real, maxMana: real, regen: real, dt: real): real {
    if mana < maxMana then Min(maxMana, mana + regen * dt) else mana
  }

  lemma RegenCaps(mana: real, maxMana: real, regen: real, dt: real)
    ensures mana <= maxMana ==> Regen(mana, maxMana, regen, dt) <= maxMana
    ensures mana > maxMana ==> Regen(mana, maxMana, regen, dt) == mana
    ensures regen >= 0.0 && dt >= 0.0 ==> Regen(mana, maxMana, regen, dt) >= Min(mana, maxMana)
  {
  }

  /**
   * `switchWand(direction)`: (index + direction + count) % count. The game passes -1 or +1
   * (src/game.js:62 and 66), and there the operands of `%` are never negative, so JavaScript's `%`
   * agrees with Dafny's.
   */
  function NextWand(index: int, direction: int, count: int): int
    requires count > 0 && 0 <= index < count && (direction == 1 || direction == -1)
  {
    (index + direction + count) % count
  }

  /** The index stays a wand index; one step forward and one back is no step; count steps go round. */
  lemma NextWandSpec(index: int, count: int)
    requires count > 0 && 0 <= index < count
    ensures NextWand(index, 1, count) == (if index == count - 1 then 0 else index + 1)
    ensures NextWand(index, -1, count) == (if index == 0 then count - 1 else index - 1)
    ensures 0 <= NextWand(index, 1, count) < count && 0 <= NextWand(index, -1, count) < count
    ensures NextWand(NextWand(index, 1, count), -1, count) == index
    ensures NextWand(NextWand(index, -1, count), 1, count) == index
  {
    NextWandStep(index, 1, count);
    NextWandStep(index, -1, count);
    NextWandStep(NextWand(index, 1, count), -1, count);
    NextWandStep(NextWand(index, -1, count), 1, count);
  }

  lemma NextWandStep(index: int, direction: int, count: int)
    requires count > 0 && 0 <= index < count && (direction == 1 || direction == -1)
    ensures NextWand(index, direction, count) ==
      if index + direction == count then 0 else if index + direction < 0 then count - 1 else index + direction
  {
    var s := index + direction;
    if s == count {
      Wands.ModUnique(s + count, count, 2, 0);
    } else if s < 0 {
      Wands.ModUnique(s + count, count, 0, count - 1);
    } else {
      Wands.ModUnique(s + count, count, 1, s);
    }
  }

  // ------------------------------------------------------------- status effects

  /** One entry of the `statusEffects` Map: the effect's name and its remaining duration. */
  datatype Status = Status(name: string, duration: real)

  /** `statusEffects.get(name).duration`, or None when the Map has no such key. */
  function DurationOf(es: seq<Status>, name: string): Option<real>
    decreases |es|
  {
    if es == [] then None
    else if es[0].name == name then Some(es[0].duration)
    else DurationOf(es[1..], name)
  }

  /** A Map holds each key once: the first key does not come again, and so on down the list. */
  predicate Keyed(es: seq<Status>)
    decreases |es|
  {
    es == [] || (DurationOf(es[1..], es[0].name).None? && Keyed(es[1..]))
  }

  /** `statusEffects.set(name, {duration})`: an existing key keeps its place, a new key goes last. */
  function SetEffect(es: seq<Status>, name: string, duration: real): seq<Status>
    decreases |es|
  {
    if es == [] then [Status(name, duration)]
    else if es[0].name == name then [Status(name, duration)] + es[1..]
    else [es[0]] + SetEffect(es[1..], name, duration)
  }

  /** `statusEffects.delete(name)`. */
  function DeleteEffect(es: seq<Status>, name: string): seq<Status>
    decreases |es|
  {
    if es == [] then []
    else if es[0].name == name then DeleteEffect(es[1..], name)
    else [es[0]] + DeleteEffect(es[1..], name)
  }

  /** After set(name, d), name maps to d and every other key to what it mapped to before. */
  lemma {:induction false} SetEffectDurations(es: seq<Status>, name: string, duration: real, m: string)
    ensures DurationOf(SetEffect(es, name, duration), m) == if m == name then Some(duration) else DurationOf(es, m)
    decreases |es|
  {
    if es != [] && es[0].name != name {
      SetEffectDurations(es[1..], name, duration, m);
      assert SetEffect(es, name, duration)[1..] == SetEffect(es[1..], name, duration);
    }
  }

  /** set(name, d) of a new key appends it; of a present key keeps every key in its place. */
  lemma {:induction false} SetEffectOrder(es: seq<Status>, name: string, duration: real)
    ensures DurationOf(es, name).None? ==> SetEffect(es, name, duration) == es + [Status(name, duration)]
    ensures DurationOf(es, name).Some? ==> var r := SetEffect(es, name, duration);
      |r| == |es| && forall i :: 0 <= i < |es| ==> r[i].name == es[i].name
    decreases |es|
  {
    if es != [] && es[0].name != name {
      SetEffectOrder(es[1..], name, duration);
      var r := SetEffect(es, name, duration);
      assert r == [es[0]] + SetEffect(es[1..], name, duration);
      if DurationOf(es, name).None? {
        assert es + [Status(name, duration)] == [es[0]] + (es[1..] + [Status(name, duration)]);
      } else {
        forall i | 0 <= i < |es|
          ensures r[i].name == es[i].name
        {
          if i > 0 {
            assert r[i] == SetEffect(es[1..], name, duration)[i - 1];
          }
        }
      }
    }
  }

  /** set(name, d) keeps the keys unique. */
  lemma {:induction false} SetEffectKeyed(es: seq<Status>, name: string, duration: real)
    requires Keyed(es)
    ensures Keyed(SetEffect(es, name, duration))
    decreases |es|
  {
    var r := SetEffect(es, name, duration);
    if es == [] {
    } else if es[0].name == name {
      assert r[1..] == es[1..];
    } else {
      SetEffectKeyed(es[1..], name, duration);
      SetEffectDurations(es[1..], name, duration, es[0].name);
      assert r[1..] == SetEffect(es[1..], name, duration);
    }
  }

  /** After delete(name), name is gone and every other key maps to what it mapped to before. */
  lemma {:induction false} DeleteEffectDurations(es: seq<Status>, name: string, m: string)
    ensures DurationOf(DeleteEffect(es, name), m) == if m == name then None else DurationOf(es, m)
    decreases |es|
  {
    if es != [] {
      DeleteEffectDurations(es[1..], name, m);
      if es[0].name != name {
        assert DeleteEffect(es, name)[1..] == DeleteEffect(es[1..], name);
      }
    }
  }

  /** delete(name) keeps the keys unique. */
  lemma {:induction false} DeleteEffectKeyed(es: seq<Status>, name: string)
    requires Keyed(es)
    ensures Keyed(DeleteEffect(es, name))
    decreases |es|
  {
    if es != [] {
      DeleteEffectKeyed(es[1..], name);
      if es[0].name != name {
        DeleteEffectDurations(es[1..], name, es[0].name);
        assert DeleteEffect(es, name)[1..] == DeleteEffect(es[1..], name);
      }
    }
  }

  /** Deleting a key the list does not hold changes nothing. */
  lemma {:induction false} DeleteAbsent(es: seq<Status>, name: string)
    requires DurationOf(es, name).None?
    ensures DeleteEffect(es, name) == es
    decreases |es|
  {
    if es != [] {
      DeleteAbsent(es[1..], name);
      assert es == [es[0]] + es[1..];
    }
  }

  /** Deletion works entry by entry, so it distributes over concatenation. */
  lemma {:induction false} DeleteAppend(a: seq<Status>, b: seq<Status>, name: string)
    ensures DeleteEffect(a + b, name) == DeleteEffect(a, name) + DeleteEffect(b, name)
    decreases |a|
  {
    if a != [] {
      assert (a + b)[1..] == a[1..] + b;
      DeleteAppend(a[1..], b, name);
    } else {
      assert a + b == b;
    }
  }

  /** The first entry for a key decides its duration: a key of a decides it in a + b. */
  lemma {:induction false} DurationOfAppend(a: seq<Status>, b: seq<Status>, m: string)
    ensures DurationOf(a + b, m) == if DurationOf(a, m).Some? then DurationOf(a, m) else DurationOf(b, m)
    decreases |a|
  {
    if a != [] {
      assert (a + b)[1..] == a[1..] + b;
      DurationOfAppend(a[1..], b, m);
    } else {
      assert a + b == b;
    }
  }

  /** So appending an entry only adds its key when that key is not there yet. */
  lemma DurationOfSnoc(a: seq<Status>, e: Status, m: string)
    ensures DurationOf(a + [e], m) ==
      if DurationOf(a, m).Some? then DurationOf(a, m) else if e.name == m then Some(e.duration) else None
  {
    DurationOfAppend(a, [e], m);
  }

  /** The two halves of a keyed list are keyed, and share no key. */
  lemma {:induction false} KeyedApart(a: seq<Status>, b: seq<Status>, n: string)
    requires Keyed(a + b)
    ensures Keyed(a) && Keyed(b)
    ensures DurationOf(a, n).Some? ==> DurationOf(b, n).None?
    decreases |a|
  {
    if a == [] {
      assert a + b == b;
    } else {
      assert (a + b)[1..] == a[1..] + b;
      KeyedApart(a[1..], b, n);
      DurationOfAppend(a[1..], b, a[0].name);
      if a[0].name == n {
        DurationOfAppend(a[1..], b, n);
      }
    }
  }

  /** Appending an entry keeps the keys unique exactly when its key is new. */
  lemma {:induction false} KeyedSnoc(a: seq<Status>, e: Status)
    ensures Keyed(a + [e]) <==> Keyed(a) && DurationOf(a, e.name).None?
    decreases |a|
  {
    if a != [] {
      assert (a + [e])[1..] == a[1..] + [e];
      KeyedSnoc(a[1..], e);
      DurationOfSnoc(a[1..], e, a[0].name);
    }
  }

  /** The damage one effect does as it ticks: fire (unless immune), then poison. */
  function Afflict(name: string, dt: real, fireImmune: bool, v: Vitals): Vitals {
    if name == "burning" && !fireImmune then Damage(v, FIRE_DAMAGE * dt)
    else if name == "poisoned" then Damage(v, 5.0 * dt)
    else v
  }

  /**
   * The duration loop of `updateStatusEffects` over the entries in order: each entry loses dt,
   * does its damage, and is deleted when nothing is left of it. Returns the new entries and the
   * vitals after all the hits.
   */
  function Tick(es: seq<Status>, dt: real, fireImmune: bool, v: Vitals): (seq<Status>, Vitals)
    decreases |es|
  {
    if es == [] then ([], v)
    else
      var before := Tick(es[..|es| - 1], dt, fireImmune, v);
      var e := es[|es| - 1];
      var left := e.duration - dt;
      (if left > 0.0 then before.0 + [Status(e.name, left)] else before.0, Afflict(e.name, dt, fireImmune, before.1))
  }

  /** What a duration becomes in a tick: dt less, or deleted when that leaves nothing. */
  function Decayed(d: Option<real>, dt: real): Option<real> {
    if d.Some? && d.value - dt > 0.0 then Some(d.value - dt) else None
  }

  /** Every effect loses dt and goes when it runs out; no effect appears; keys stay unique. */
  lemma TickEntries(es: seq<Status>, dt: real, fireImmune: bool, v: Vitals)
    requires Keyed(es)
    ensures var r := Tick(es, dt, fireImmune, v).0;
      Keyed(r) && forall m :: DurationOf(r, m) == Decayed(DurationOf(es, m), dt)
  {
    TickDecays(es, dt, fireImmune, v);
    TickKeyed(es, dt, fireImmune, v);
  }

  /** The tick of a + [e] is the tick of a, then one step on e. */
  lemma TickSnoc(a: seq<Status>, e: Status, dt: real, fireImmune: bool, v: Vitals)
    ensures var t := Tick(a, dt, fireImmune, v);
      Tick(a + [e], dt, fireImmune, v) ==
        (if e.duration - dt > 0.0 then t.0 + [Status(e.name, e.duration - dt)] else t.0, Afflict(e.name, dt, fireImmune, t.1))
  {
    assert (a + [e])[..|a|] == a;
  }

  /** Every effect of a Map loses dt and goes when it runs out, and no effect appears. */
  lemma {:induction false} TickDecays(es: seq<Status>, dt: real, fireImmune: bool, v: Vitals)
    requires Keyed(es)
    ensures forall m :: DurationOf(Tick(es, dt, fireImmune, v).0, m) == Decayed(DurationOf(es, m), dt)
    decreases |es|
  {
    if es != [] {
      var a := es[..|es| - 1];
      var e := es[|es| - 1];
      assert es == a + [e];
      KeyedSnoc(a, e);
      TickDecays(a, dt, fireImmune, v);
      TickSnoc(a, e, dt, fireImmune, v);
      var before := Tick(a, dt, fireImmune, v).0;
      var e' := Status(e.name, e.duration - dt);
      forall m
        ensures DurationOf(Tick(es, dt, fireImmune, v).0, m) == Decayed(DurationOf(es, m), dt)
      {
        DurationOfSnoc(a, e, m);
        DurationOfSnoc(before, e', m);
      }
    }
  }

  /** The tick of a Map holds each key once. */
  lemma {:induction false} TickKeyed(es: seq<Status>, dt: real, fireImmune: bool, v: Vitals)
    requires Keyed(es)
    ensures Keyed(Tick(es, dt, fireImmune, v).0)
    decreases |es|
  {
    if es != [] {
      var a := es[..|es| - 1];
      var e := es[|es| - 1];
      assert es == a + [e];
      KeyedSnoc(a, e);
      TickKeyed(a, dt, fireImmune, v);
      TickDecays(a, dt, fireImmune, v);
      TickSnoc(a, e, dt, fireImmune, v);
      KeyedSnoc(Tick(a, dt, fireImmune, v).0, Status(e.name, e.duration - dt));
    }
  }

  /** While the invincibility timer runs no effect does damage. */
  lemma {:induction false} TickUnderIframes(es: seq<Status>, dt: real, fireImmune: bool, v: Vitals)
    requires v.iframeTimer > 0.0
    ensures Tick(es, dt, fireImmune, v).1 == v
    decreases |es|
  {
    if es != [] {
      TickUnderIframes(es[..|es| - 1], dt, fireImmune, v);
    }
  }

  /**
   * At most one effect hurts per tick: the first hit restarts the invincibility timer, which then
   * absorbs the rest. So the vitals are untouched or hit once by fire or by poison.
   */
  lemma {:induction false} TickHitsOnce(es: seq<Status>, dt: real, fireImmune: bool, v: Vitals)
    ensures var r := Tick(es, dt, fireImmune, v).1;
      r == v || r == Damage(v, FIRE_DAMAGE * dt) || r == Damage(v, 5.0 * dt)
    decreases |es|
  {
    if es != [] {
      TickHitsOnce(es[..|es| - 1], dt, fireImmune, v);
      var before := Tick(es[..|es| - 1], dt, fireImmune, v).1;
      if before != v {
        assert before.iframeTimer > 0.0;
      }
    }
  }

  /** A fire-immune player who is not poisoned takes no damage from effects. */
  lemma {:induction false} ImmuneUnharmed(es: seq<Status>, dt: real, v: Vitals)
    requires DurationOf(es, "poisoned").None?
    ensures Tick(es, dt, true, v).1 == v
    decreases |es|
  {
    if es != [] {
      var a := es[..|es| - 1];
      assert es == a + [es[|es| - 1]];
      DurationOfSnoc(a, es[|es| - 1], "poisoned");
      ImmuneUnharmed(a, dt, v);
    }
  }

  /** Effects only lower hp, so a tick keeps hp at or under the maximum (for dt >= 0). */
  lemma {:induction false} TickKeepsCap(es: seq<Status>, dt: real, fireImmune: bool, v: Vitals)
    requires dt >= 0.0 && v.hp <= v.maxHp && v.maxHp >= 1.0
    ensures var r := Tick(es, dt, fireImmune, v).1; r.hp <= r.maxHp && r.maxHp == v.maxHp
  {
    TickHitsOnce(es, dt, fireImmune, v);
    DamageKeepsCap(v, FIRE_DAMAGE * dt);
    DamageKeepsCap(v, 5.0 * dt);
  }

  /**
   * The state of the duration loop before entry i: the entries before it have been aged (or
   * deleted) as Tick says, leaving es and the vitals v, the rest are untouched, and j counts the
   * aged entries still there.
   */
  ghost predicate Aging(entries: seq<Status>, i: int, j: int, dt: real, fireImmune: bool, v0: Vitals, es: seq<Status>, v: Vitals)
    requires 0 <= i <= |entries|
  {
    var t := Tick(entries[..i], dt, fireImmune, v0);
    es == t.0 + entries[i..] && v == t.1 && j == |t.0|
  }

  /**
   * One turn of the duration loop for an entry that has time left: at place j of the map it gets
   * its shortened duration, and the vitals take its damage.
   */
  lemma AgingKeep(entries: seq<Status>, i: int, j: int, dt: real, fireImmune: bool, v0: Vitals, es: seq<Status>, v: Vitals)
    requires 0 <= i < |entries| && Aging(entries, i, j, dt, fireImmune, v0, es, v)
    requires entries[i].duration - dt > 0.0
    ensures 0 <= j < |es|
    ensures Aging(entries, i + 1, j + 1, dt, fireImmune, v0, es[j := Status(entries[i].name, entries[i].duration - dt)],
      Afflict(entries[i].name, dt, fireImmune, v))
  {
    var t := Tick(entries[..i], dt, fireImmune, v0);
    var e := entries[i];
    var rest := entries[i + 1..];
    var aged := Status(e.name, e.duration - dt);
    TickNext(entries, i, dt, fireImmune, v0);
    assert entries[i..] == [e] + rest;
    assert es == t.0 + ([e] + rest) && j == |t.0|;
    assert es[j := aged] == (t.0 + [aged]) + rest;
  }

  /**
   * One turn of the duration loop for an entry whose time is up: it gets its shortened duration
   * and is then deleted, which removes just that entry; the vitals take its damage.
   */
  lemma AgingDrop(entries: seq<Status>, i: int, j: int, dt: real, fireImmune: bool, v0: Vitals, es: seq<Status>, v: Vitals)
    requires Keyed(entries) && 0 <= i < |entries| && Aging(entries, i, j, dt, fireImmune, v0, es, v)
    requires entries[i].duration - dt <= 0.0
    ensures 0 <= j < |es|
    ensures var e, t1 := entries[i], Tick(entries[..i + 1], dt, fireImmune, v0);
      DeleteEffect(es[j := Status(e.name, e.duration - dt)], e.name) == t1.0 + entries[i + 1..] &&
      Afflict(e.name, dt, fireImmune, v) == t1.1 && j == |t1.0|
  {
    var t := Tick(entries[..i], dt, fireImmune, v0);
    var e := entries[i];
    var rest := entries[i + 1..];
    var aged := Status(e.name, e.duration - dt);
    AgedKeyIsNew(entries, i, dt, fireImmune, v0);
    TickNext(entries, i, dt, fireImmune, v0);
    assert entries[i..] == [e] + rest;
    DropMiddle(t.0, e, rest, es, aged);
    var t1 := Tick(entries[..i + 1], dt, fireImmune, v0);
    assert t1.0 == t.0 && t1.1 == Afflict(e.name, dt, fireImmune, v);
  }

  /** Once every entry has been visited, the duration loop has done what Tick says. */
  lemma AgingDone(entries: seq<Status>, j: int, dt: real, fireImmune: bool, v0: Vitals, es: seq<Status>, v: Vitals)
    requires Aging(entries, |entries|, j, dt, fireImmune, v0, es, v)
    ensures (es, v) == Tick(entries, dt, fireImmune, v0)
  {
    var t := Tick(entries[..|entries|], dt, fireImmune, v0);
    assert entries[..|entries|] == entries && entries[|entries|..] == [];
    assert es == t.0 + [] == t.0;
  }

  /** The duration loop one entry further on: Tick of the longer prefix, taken one step. */
  lemma TickNext(entries: seq<Status>, i: int, dt: real, fireImmune: bool, v0: Vitals)
    requires 0 <= i < |entries|
    ensures var t, e := Tick(entries[..i], dt, fireImmune, v0), entries[i];
      Tick(entries[..i + 1], dt, fireImmune, v0) ==
        (if e.duration - dt > 0.0 then t.0 + [Status(e.name, e.duration - dt)] else t.0, Afflict(e.name, dt, fireImmune, t.1))
  {
    assert entries[..i + 1][..i] == entries[..i];
  }

  /** In the duration loop the current key occurs neither in what was aged before it nor after it. */
  lemma AgedKeyIsNew(entries: seq<Status>, i: int, dt: real, fireImmune: bool, v0: Vitals)
    requires Keyed(entries) && 0 <= i < |entries|
    ensures var n := entries[i].name;
      DurationOf(Tick(entries[..i], dt, fireImmune, v0).0, n).None? && DurationOf(entries[i + 1..], n).None?
  {
    var e := entries[i];
    assert entries == entries[..i] + [e] + entries[i + 1..];
    KeyedApart(entries[..i] + [e], entries[i + 1..], e.name);
    KeyedSnoc(entries[..i], e);
    DurationOfSnoc(entries[..i], e, e.name);
    TickEntries(entries[..i], dt, fireImmune, v0);
  }

  /** Deleting a key that occurs once removes just that entry. */
  /** Overwriting the entry after `a` and then deleting its key leaves `a + b`. */
  lemma DropMiddle(a: seq<Status>, e: Status, b: seq<Status>, es: seq<Status>, aged: Status)
    requires es == a + ([e] + b) && aged.name == e.name
    requires DurationOf(a, e.name).None? && DurationOf(b, e.name).None?
    ensures |a| < |es| && DeleteEffect(es[|a| := aged], e.name) == a + b
  {
    UpdateMiddle(a, e, b, aged);
    DeleteMiddle(a, aged, b);
  }

  lemma UpdateMiddle(a: seq<Status>, e: Status, b: seq<Status>, aged: Status)
    ensures (a + ([e] + b))[|a| := aged] == a + [aged] + b
  {
  }

  lemma DeleteMiddle(a: seq<Status>, e: Status, b: seq<Status>)
    requires DurationOf(a, e.name).None? && DurationOf(b, e.name).None?
    ensures DeleteEffect(a + [e] + b, e.name) == a + b
  {
    DeleteAppend(a + [e], b, e.name);
    DeleteAppend(a, [e], e.name);
    DeleteAbsent(a, e.name);
    DeleteAbsent(b, e.name);
    assert DeleteEffect([e], e.name) == [];
  }

  // ------------------------------------------------------------- the environment

  /** The fields `updateStatusEffects` reads and writes. */
  datatype Condition = Condition(vitals: Vitals, effects: seq<Status>, wet: bool)

  /**
   * The environment check of `updateStatusEffects` on the cell under the player (None outside
   * the world): fire and lava set burning for 2 s unless immune; water wets and puts the fire out;
   * poison sets poisoned for 3 s; electricity, when wet, does ELECTRICITY_DAMAGE and sets
   * electrified for 1 s. The checks run in this order.
   */
  function Environment(c: Condition, fireImmune: bool, cell: Option<Pixel>): Condition {
    if cell.None? then c
    else
      var t := cell.value.kind;
      var c1 := if (t == FIRE || t == LAVA) && !fireImmune then c.(effects := SetEffect(c.effects, "burning", 2.0)) else c;
      var c2 := if t == WATER then c1.(wet := true, effects := DeleteEffect(c1.effects, "burning")) else c1;
      var c3 := if t == POISON then c2.(effects := SetEffect(c2.effects, "poisoned", 3.0)) else c2;
      if t == ELECTRICITY && c3.wet then
        c3.(vitals := Damage(c3.vitals, ELECTRICITY_DAMAGE), effects := SetEffect(c3.effects, "electrified", 1.0))
      else c3
  }

  /**
   * `updateStatusEffects(dt, world)` on the cell under the player: the environment check, the
   * duration loop, and a wet player staying wet when a draw exceeds 0.01 * dt (one draw, taken only
   * when wet). Returns the new condition and the next draw.
   */
  function StatusStep(c: Condition, fireImmune: bool, cell: Option<Pixel>, dt: real, d: Draws, k: nat): (Condition, nat) {
    var e := Environment(c, fireImmune, cell);
    var t := Tick(e.effects, dt, fireImmune, e.vitals);
    if e.wet then (Condition(t.1, t.0, d(k) > 0.01 * dt), k + 1) else (Condition(t.1, t.0, false), k)
  }

  /** Standing in water leaves the player without a fire, whatever burned before. */
  lemma WaterDouses(c: Condition, fireImmune: bool, p: Pixel, dt: real, d: Draws, k: nat)
    requires p.kind == WATER && Keyed(c.effects)
    ensures var r := StatusStep(c, fireImmune, Some(p), dt, d, k);
      DurationOf(r.0.effects, "burning").None? && r.1 == k + 1 && r.0.wet == (d(k) > 0.01 * dt)
  {
    var e := Environment(c, fireImmune, Some(p));
    DeleteEffectDurations(c.effects, "burning", "burning");
    DeleteEffectKeyed(c.effects, "burning");
    TickEntries(e.effects, dt, fireImmune, e.vitals);
  }

  /** A fire-immune player never catches fire. */
  lemma ImmuneNeverBurns(c: Condition, cell: Option<Pixel>, dt: real, d: Draws, k: nat)
    requires Keyed(c.effects) && DurationOf(c.effects, "burning").None?
    ensures DurationOf(StatusStep(c, true, cell, dt, d, k).0.effects, "burning").None?
  {
    var e := Environment(c, true, cell);
    StatusKeyed(c, true, cell);
    if cell.Some? {
      var t := cell.value.kind;
      var c2 := if t == WATER then DeleteEffect(c.effects, "burning") else c.effects;
      DeleteEffectDurations(c.effects, "burning", "burning");
      var c3 := if t == POISON then SetEffect(c2, "poisoned", 3.0) else c2;
      SetEffectDurations(c2, "poisoned", 3.0, "burning");
      SetEffectDurations(c3, "electrified", 1.0, "burning");
    }
    assert DurationOf(e.effects, "burning").None?;
    TickEntries(e.effects, dt, true, e.vitals);
  }

  /** Fire or lava sets 2 s of burning on a player who is not immune; the tick then takes dt off. */
  lemma FireIgnites(c: Condition, p: Pixel, dt: real, d: Draws, k: nat)
    requires (p.kind == FIRE || p.kind == LAVA) && Keyed(c.effects) && 0.0 <= dt < 2.0
    ensures DurationOf(StatusStep(c, false, Some(p), dt, d, k).0.effects, "burning") == Some(2.0 - dt)
  {
    var e := Environment(c, false, Some(p));
    SetEffectDurations(c.effects, "burning", 2.0, "burning");
    SetEffectKeyed(c.effects, "burning", 2.0);
    assert e.effects == SetEffect(c.effects, "burning", 2.0);
    TickEntries(e.effects, dt, false, e.vitals);
  }

  /** Electricity hurts only a wet player, and then exactly by ELECTRICITY_DAMAGE. */
  lemma ShockNeedsWater(c: Condition, fireImmune: bool, p: Pixel)
    requires p.kind == ELECTRICITY
    ensures Environment(c, fireImmune, Some(p)).vitals ==
      if c.wet then Damage(c.vitals, ELECTRICITY_DAMAGE) else c.vitals
    ensures Environment(c, fireImmune, Some(p)).wet == c.wet
  {
  }

  /** The status step keeps the keys of the effect Map unique. */
  lemma StatusKeyed(c: Condition, fireImmune: bool, cell: Option<Pixel>)
    requires Keyed(c.effects)
    ensures Keyed(Environment(c, fireImmune, cell).effects)
  {
    if cell.Some? {
      var t := cell.value.kind;
      var c1 := if (t == FIRE || t == LAVA) && !fireImmune then c.(effects := SetEffect(c.effects, "burning", 2.0)) else c;
      SetEffectKeyed(c.effects, "burning", 2.0);
      var c2 := if t == WATER then c1.(wet := true, effects := DeleteEffect(c1.effects, "burning")) else c1;
      DeleteEffectKeyed(c1.effects, "burning");
      var c3 := if t == POISON then c2.(effects := SetEffect(c2.effects, "poisoned", 3.0)) else c2;
      SetEffectKeyed(c2.effects, "poisoned", 3.0);
      SetEffectKeyed(c3.effects, "electrified", 1.0);
    }
  }

  /** The environment either leaves the vitals alone or deals one electric hit. */
  lemma EnvironmentHits(c: Condition, fireImmune: bool, cell: Option<Pixel>)
    ensures var r := Environment(c, fireImmune, cell).vitals;
      r == c.vitals || r == Damage(c.vitals, ELECTRICITY_DAMAGE)
  {
  }

  // ------------------------------------------------------------- movement and the frame

  /** The world cell a coordinate falls in: `Math.floor(c / PIXEL_SIZE)`. */
  function Cell(c: real): int {
    (c / PIXEL_SIZE as real).Floor
  }

  /**
   * The velocity `update` sets from the held keys: up, then down, then left, then right, each
   * overriding the one before on its axis; a diagonal is scaled by 0.707 on both axes.
   */
  function Velocity(keys: set<string>, speed: real): (real, real) {
    var vy0 := if "w" in keys || "arrowup" in keys then -speed else 0.0;
    var vy := if "s" in keys || "arrowdown" in keys then speed else vy0;
    var vx0 := if "a" in keys || "arrowleft" in keys then -speed else 0.0;
    var vx := if "d" in keys || "arrowright" in keys then speed else vx0;
    if vx != 0.0 && vy != 0.0 then (vx * 0.707, vy * 0.707) else (vx, vy)
  }

  /**
   * With a positive speed: the player moves down exactly when down is held, up when only up is
   * held (down wins), and likewise right over left; each axis moves at full speed alone and at
   * 0.707 of it on a diagonal.
   */
  lemma VelocitySpec(keys: set<string>, speed: real)
    requires speed > 0.0
    ensures var v := Velocity(keys, speed);
      var up, down := "w" in keys || "arrowup" in keys, "s" in keys || "arrowdown" in keys;
      var left, right := "a" in keys || "arrowleft" in keys, "d" in keys || "arrowright" in keys;
      (v.1 > 0.0 <==> down) && (v.1 < 0.0 <==> up && !down) &&
      (v.0 > 0.0 <==> right) && (v.0 < 0.0 <==> left && !right) &&
      (v.0 != 0.0 && v.1 != 0.0 ==> v.0 * v.0 == v.1 * v.1 == speed * speed * 0.707 * 0.707) &&
      (v.0 == 0.0 || v.1 == 0.0 ==> v.0 * v.0 + v.1 * v.1 == speed * speed || v == (0.0, 0.0))
  {
  }

  /** Where a coordinate moving at speed v is after dt: `x + vx * dt`. */
  function Advance(x: real, v: real, dt: real): real {
    x + v * dt
  }

  /** The simple collision of `update`: the player takes the step to (nx, ny) only onto an empty cell. */
  function Walk(x: real, y: real, nx: real, ny: real, g: Cells): (real, real) {
    if IsEmptyAt(g, Cell(nx), Cell(ny)) then (nx, ny) else (x, y)
  }

  /** After a step the player is where they were or in an empty cell of the world. */
  lemma WalkLandsInAir(x: real, y: real, nx: real, ny: real, g: Cells)
    ensures var p := Walk(x, y, nx, ny, g);
      (p == (x, y) || IsEmptyAt(g, Cell(p.0), Cell(p.1))) && (IsEmptyAt(g, Cell(nx), Cell(ny)) ==> p == (nx, ny))
  {
  }

  /**
   * The electric aura perk while moving: a draw below 0.3 strikes, a second draw picks the angle,
   * and an empty cell at that angle, 15 cells from (px, py), turns into ELECTRICITY. `polar` is
   * the offset (floor(15 cos 2 pi r), floor(15 sin 2 pi r)) for a draw r.
   */
  function Aura(g: Cells, on: bool, v: (real, real), px: int, py: int, polar: Unit -> (int, int), d: Draws, k: nat): (Cells, nat) {
    if on && (v.0 != 0.0 || v.1 != 0.0) then
      if d(k) < 0.3 then
        var off := polar(d(k + 1));
        var ex, ey := px + off.0, py + off.1;
        (if IsEmptyAt(g, ex, ey) then Grid.SetPixel(g, ex, ey, ELECTRICITY) else g, k + 2)
      else (g, k + 1)
    else (g, k)
  }

  /**
   * The aura changes at most one cell, an empty one at the angle of the second draw, into
   * ELECTRICITY; it needs the perk and movement, and takes no draw otherwise.
   */
  lemma AuraStrikes(g: Cells, on: bool, v: (real, real), px: int, py: int, polar: Unit -> (int, int), d: Draws, k: nat)
    ensures var r := Aura(g, on, v, px, py, polar, d, k);
      (!on || v == (0.0, 0.0) ==> r == (g, k)) &&
      (r.0 != g ==>
        var ex, ey := px + polar(d(k + 1)).0, py + polar(d(k + 1)).1;
        on && d(k) < 0.3 && r.1 == k + 2 &&
        IsEmptyAt(g, ex, ey) && OnlyAt(g, r.0, ex, ey) && r.0[ey][ex].kind == ELECTRICITY)
  {
  }

  /** The fields of the player `update` writes. */
  datatype Body = Body(x: real, y: real, vx: real, vy: real, mana: real, cond: Condition)

  /** The fields of the player `update` only reads. */
  datatype Traits = Traits(speed: real, maxMana: real, manaRegen: real, fireImmune: bool, electricAura: bool)

  /** The invincibility timer counts down by dt while positive. */
  function Cool(v: Vitals, dt: real): Vitals {
    if v.iframeTimer > 0.0 then v.(iframeTimer := v.iframeTimer - dt) else v
  }

  /**
   * `update(dt, world)` on the player's fields, the world and the draws: cool the timer, walk,
   * let the aura strike, regenerate mana, then the status step on the cell the player ends in.
   * The wand's own update is Wand.Update.
   */
  function Frame(b: Body, t: Traits, keys: set<string>, g: Cells, dt: real, polar: Unit -> (int, int), d: Draws, k: nat): (Body, Cells, nat) {
    var v := Velocity(keys, t.speed);
    var nx, ny := Advance(b.x, v.0, dt), Advance(b.y, v.1, dt);
    var pos := Walk(b.x, b.y, nx, ny, g);
    var aura := Aura(g, t.electricAura, v, Cell(nx), Cell(ny), polar, d, k);
    var status := StatusStep(b.cond.(vitals := Cool(b.cond.vitals, dt)), t.fireImmune, Get(aura.0, Cell(pos.0), Cell(pos.1)), dt, d, aura.1);
    (Body(pos.0, pos.1, v.0, v.1, Regen(b.mana, t.maxMana, t.manaRegen, dt), status.0), aura.0, status.1)
  }

  /**
   * The status step hurts at most once: the vitals are untouched or take one electric, fire or
   * poison hit, because the first hit restarts the invincibility timer.
   */
  lemma StatusHitsOnce(c: Condition, fireImmune: bool, cell: Option<Pixel>, dt: real, d: Draws, k: nat)
    ensures var v, r := c.vitals, StatusStep(c, fireImmune, cell, dt, d, k).0.vitals;
      r == v || r == Damage(v, ELECTRICITY_DAMAGE) || r == Damage(v, FIRE_DAMAGE * dt) || r == Damage(v, 5.0 * dt)
  {
    var e := Environment(c, fireImmune, cell);
    EnvironmentHits(c, fireImmune, cell);
    TickHitsOnce(e.effects, dt, fireImmune, e.vitals);
    if e.vitals != c.vitals && c.vitals.iframeTimer <= 0.0 {
      TickUnderIframes(e.effects, dt, fireImmune, e.vitals);
    }
  }

  /** The status step keeps hp within the maximum, which it does not change (for dt >= 0). */
  lemma StatusKeepsCap(c: Condition, fireImmune: bool, cell: Option<Pixel>, dt: real, d: Draws, k: nat)
    requires dt >= 0.0 && c.vitals.hp <= c.vitals.maxHp && c.vitals.maxHp >= 1.0
    ensures var r := StatusStep(c, fireImmune, cell, dt, d, k).0.vitals; r.hp <= r.maxHp == c.vitals.maxHp
  {
    var e := Environment(c, fireImmune, cell);
    EnvironmentHits(c, fireImmune, cell);
    DamageKeepsCap(c.vitals, ELECTRICITY_DAMAGE);
    TickKeepsCap(e.effects, dt, fireImmune, e.vitals);
  }

  /**
   * A frame hurts at most once: after the timer has cooled, the vitals are untouched or take one
   * electric, fire or poison hit.
   */
  lemma FrameHitsOnce(b: Body, t: Traits, keys: set<string>, g: Cells, dt: real, polar: Unit -> (int, int), d: Draws, k: nat)
    ensures var v := Cool(b.cond.vitals, dt);
      var r := Frame(b, t, keys, g, dt, polar, d, k).0.cond.vitals;
      r == v || r == Damage(v, ELECTRICITY_DAMAGE) || r == Damage(v, FIRE_DAMAGE * dt) || r == Damage(v, 5.0 * dt)
  {
    var v := Velocity(keys, t.speed);
    var nx, ny := Advance(b.x, v.0, dt), Advance(b.y, v.1, dt);
    var pos := Walk(b.x, b.y, nx, ny, g);
    var aura := Aura(g, t.electricAura, v, Cell(nx), Cell(ny), polar, d, k);
    var c := b.cond.(vitals := Cool(b.cond.vitals, dt));
    var cell := Get(aura.0, Cell(pos.0), Cell(pos.1));
    assert Frame(b, t, keys, g, dt, polar, d, k).0.cond == StatusStep(c, t.fireImmune, cell, dt, d, aura.1).0;
    StatusHitsOnce(c, t.fireImmune, cell, dt, d, aura.1);
  }

  /**
   * A frame keeps hp within the maximum (which it does not change) and mana within its maximum,
   * for a non-negative frame time.
   */
  lemma FrameKeepsCaps(b: Body, t: Traits, keys: set<string>, g: Cells, dt: real, polar: Unit -> (int, int), d: Draws, k: nat)
    requires dt >= 0.0 && b.cond.vitals.hp <= b.cond.vitals.maxHp && b.cond.vitals.maxHp >= 1.0 && b.mana <= t.maxMana
    ensures var r := Frame(b, t, keys, g, dt, polar, d, k).0;
      r.cond.vitals.hp <= r.cond.vitals.maxHp == b.cond.vitals.maxHp && r.mana <= t.maxMana
  {
    var v := Velocity(keys, t.speed);
    var nx, ny := Advance(b.x, v.0, dt), Advance(b.y, v.1, dt);
    var pos := Walk(b.x, b.y, nx, ny, g);
    var aura := Aura(g, t.electricAura, v, Cell(nx), Cell(ny), polar, d, k);
    StatusKeepsCap(b.cond.(vitals := Cool(b.cond.vitals, dt)), t.fireImmune, Get(aura.0, Cell(pos.0), Cell(pos.1)), dt, d, aura.1);
    RegenCaps(b.mana, t.maxMana, t.manaRegen, dt);
  }

  // ------------------------------------------------------------- the player object

  /**
   * Wand.Update(dt) on w, from mana and timers m, c, r: mana below the maximum recharges up to it,
   * and each timer counts down while positive.
   */
  ghost predicate WandUpdated(w: Wands.Wand, m: real, c: real, r: real, dt: real)
    reads w
  {
    w.currentMana == (if m < w.maxMana then Min(w.maxMana, m + w.manaRecharge * dt) else m) &&
    w.castTimer == (if c > 0.0 then c - dt else c) &&
    w.rechargeTimer == (if r > 0.0 then r - dt else r)
  }

  class Player {
    var x: real
    var y: real
    var vx: real
    var vy: real
    var speed: real
    var hp: real
    var maxHp: real
    var mana: real
    var maxMana: real
    var manaRegen: real
    var iframeTimer: real
    var gold: int
    var kills: int
    var wands: seq<Wands.Wand>
    var currentWandIndex: int
    /** `statusEffects`: a Map from effect name to remaining duration, in insertion order. */
    var effects: seq<Status>
    var wet: bool
    var perks: seq<Perks.Perk>
    var explosionImmune: bool
    var fireImmune: bool
    var vampirism: bool
    var goldMultiplier: real
    var savingGrace: bool
    var electricAura: bool
    var projectileRepulsion: bool
    var extraLives: int
    var critChance: real
    /** The keys held down: `keys[k]` is true exactly for k in this set. */
    var keys: set<string>

    /** The current wand index names a wand, every wand is valid, and each effect name occurs once. */
    predicate Valid()
      reads this`currentWandIndex, this`wands, this`effects, wands
    {
      0 <= currentWandIndex < |wands| && (forall w :: w in wands ==> w.Valid()) && Keyed(effects)
    }

    function VitalsOf(): Vitals
      reads this`hp, this`maxHp, this`iframeTimer, this`savingGrace, this`extraLives
    {
      Vitals(hp, maxHp, iframeTimer, savingGrace, extraLives)
    }

    function ConditionOf(): Condition
      reads this`hp, this`maxHp, this`iframeTimer, this`savingGrace, this`extraLives, this`effects, this`wet
    {
      Condition(VitalsOf(), effects, wet)
    }

    function BodyOf(): Body
      reads this`x, this`y, this`vx, this`vy, this`mana,
        this`hp, this`maxHp, this`iframeTimer, this`savingGrace, this`extraLives, this`effects, this`wet
    {
      Body(x, y, vx, vy, mana, ConditionOf())
    }

    function TraitsOf(): Traits
      reads this`speed, this`maxMana, this`manaRegen, this`fireImmune, this`electricAura
    {
      Traits(speed, maxMana, manaRegen, fireImmune, electricAura)
    }

    /** The fields a perk's `apply` may change. */
    function StatsOf(): Perks.Stats
      reads this`maxHp, this`hp, this`explosionImmune, this`vampirism, this`goldMultiplier, this`manaRegen,
        this`speed, this`savingGrace, this`fireImmune, this`electricAura, this`projectileRepulsion,
        this`extraLives, this`critChance
    {
      Perks.Stats(maxHp, hp, explosionImmune, vampirism, goldMultiplier, manaRegen, speed, savingGrace,
        fireImmune, electricAura, projectileRepulsion, extraLives, critChance)
    }

    /**
     * `new Player(x, y)`: full health and mana, no gold, kills, effects or perks, and one wand, a
     * clone of the starter template.
     */
    constructor (x: real, y: real)
      ensures Valid() && fresh(wands[0]) && |wands| == 1
      ensures this.x == x && this.y == y && vx == 0.0 && vy == 0.0 && speed == PLAYER_SPEED
      ensures VitalsOf() == Vitals(PLAYER_HP, PLAYER_HP, 0.0, false, 0)
      ensures mana == 100.0 && maxMana == 100.0 && manaRegen == MANA_REGEN
      ensures gold == STARTING_GOLD && kills == 0 && currentWandIndex == 0
      ensures wands[0].spells == Wands.STARTER.spells.value && wands[0].currentMana == wands[0].maxMana
      ensures effects == [] && !wet && perks == [] && keys == {}
      ensures StatsOf() == Perks.Stats(PLAYER_HP, PLAYER_HP, false, false, 1.0, MANA_REGEN, PLAYER_SPEED,
        false, false, false, false, 0, 0.0)
    {
      this.x := x;
      this.y := y;
      vx := 0.0;
      vy := 0.0;
      speed := PLAYER_SPEED;
      hp := PLAYER_HP;
      maxHp := PLAYER_HP;
      mana := 100.0;
      maxMana := 100.0;
      manaRegen := MANA_REGEN;
      iframeTimer := 0.0;
      gold := STARTING_GOLD;
      kills := 0;
      var starter := new Wands.Wand(Wands.STARTER);
      var w := starter.Clone();
      wands := [w];
      currentWandIndex := 0;
      effects := [];
      wet := false;
      perks := [];
      explosionImmune := false;
      fireImmune := false;
      vampirism := false;
      goldMultiplier := 1.0;
      savingGrace := false;
      electricAura := false;
      projectileRepulsion := false;
      extraLives := 0;
      critChance := 0.0;
      keys := {};
    }

    /** `currentWand`. */
    function CurrentWand(): Wands.Wand
      reads this`currentWandIndex, this`wands
      requires 0 <= currentWandIndex < |wands|
    {
      wands[currentWandIndex]
    }

    /** `isDead()`. */
    predicate IsDead()
      reads this`hp
    {
      hp <= 0.0
    }

    /** `takeDamage(amount)`, as Damage says. */
    method TakeDamage(amount: real)
      modifies this`hp, this`iframeTimer, this`savingGrace, this`extraLives
      ensures VitalsOf() == Damage(old(VitalsOf()), amount)
    {
      if iframeTimer > 0.0 {
        return;
      }
      hp := hp - amount;
      iframeTimer := IFRAME_DURATION;
      if hp <= 0.0 && savingGrace {
        hp := 1.0;
        savingGrace := false;
      }
      if hp <= 0.0 && extraLives > 0 {
        hp := maxHp * 0.5;
        extraLives := extraLives - 1;
      }
    }

    /** `heal(amount)`. */
    method Heal(amount: real)
      modifies this`hp
      ensures hp == Healed(old(hp), maxHp, amount)
    {
      hp := Min(maxHp, hp + amount);
    }

    /** `addGold(amount)`. */
    method AddGold(amount: real)
      modifies this`gold
      ensures gold == old(gold) + GoldGain(amount, goldMultiplier)
    {
      var finalAmount := (amount * goldMultiplier).Floor;
      gold := gold + finalAmount;
    }

    /** `onKill()`: one more kill, and 5 HP back with the vampirism perk. */
    method OnKill()
      modifies this`kills, this`hp
      ensures kills == old(kills) + 1
      ensures hp == if vampirism then Healed(old(hp), maxHp, 5.0) else old(hp)
    {
      kills := kills + 1;
      if vampirism {
        Heal(5.0);
      }
    }

    /** `switchWand(direction)` for the directions the game passes. */
    method SwitchWand(direction: int)
      requires Valid() && (direction == 1 || direction == -1)
      modifies this`currentWandIndex
      ensures Valid() && currentWandIndex == NextWand(old(currentWandIndex), direction, |wands|)
    {
      NextWandSpec(currentWandIndex, |wands|);
      currentWandIndex := (currentWandIndex + direction + |wands|) % |wands|;
    }

    /** `addStatusEffect(name, duration)`. */
    method AddStatusEffect(name: string, duration: real)
      modifies this`effects
      ensures effects == SetEffect(old(effects), name, duration)
      ensures Keyed(old(effects)) ==> Keyed(effects)
    {
      if Keyed(effects) {
        SetEffectKeyed(effects, name, duration);
      }
      effects := SetEffect(effects, name, duration);
    }

    /** `removeStatusEffect(name)`. */
    method RemoveStatusEffect(name: string)
      modifies this`effects
      ensures effects == DeleteEffect(old(effects), name)
      ensures Keyed(old(effects)) ==> Keyed(effects)
    {
      if Keyed(effects) {
        DeleteEffectKeyed(effects, name);
      }
      effects := DeleteEffect(effects, name);
    }

    /** The environment check of `updateStatusEffects` on the record under the player. */
    method Sense(pixel: Option<Pixel>)
      modifies this`hp, this`iframeTimer, this`savingGrace, this`extraLives, this`effects, this`wet
      ensures ConditionOf() == Environment(old(ConditionOf()), fireImmune, pixel)
      ensures Keyed(old(effects)) ==> Keyed(effects)
    {
      ghost var c := ConditionOf();
      if Keyed(effects) {
        StatusKeyed(c, fireImmune, pixel);
      }
      if pixel.Some? {
        var t := pixel.value.kind;
        if t == FIRE || t == LAVA {
          if !fireImmune {
            effects := SetEffect(effects, "burning", 2.0);
          }
        }
        if t == WATER {
          wet := true;
          effects := DeleteEffect(effects, "burning");
        }
        if t == POISON {
          effects := SetEffect(effects, "poisoned", 3.0);
        }
        if t == ELECTRICITY {
          if wet {
            TakeDamage(ELECTRICITY_DAMAGE);
            effects := SetEffect(effects, "electrified", 1.0);
          }
        }
      }
    }

    /** The duration loop of `updateStatusEffects`, over the entries in insertion order. */
    method Age(dt: real)
      requires Keyed(effects)
      modifies this`hp, this`iframeTimer, this`savingGrace, this`extraLives, this`effects
      ensures Keyed(effects)
      ensures (effects, VitalsOf()) == Tick(old(effects), dt, fireImmune, old(VitalsOf()))
    {
      var entries := effects;
      ghost var v0 := VitalsOf();
      var i, j := 0, 0;
      while i < |entries|
        invariant 0 <= i <= |entries| && Aging(entries, i, j, dt, fireImmune, v0, effects, VitalsOf())
      {
        j := AgeEntry(entries, i, j, entries[i], dt, v0);
        i := i + 1;
      }
      AgingDone(entries, j, dt, fireImmune, v0, effects, VitalsOf());
      TickEntries(entries, dt, fireImmune, v0);
    }

    /** One turn of the duration loop: the entry loses dt, does its damage, and goes if spent. */
    method AgeEntry(ghost entries: seq<Status>, i: int, j: int, e: Status, dt: real, ghost v0: Vitals) returns (j': int)
      requires Keyed(entries) && 0 <= i < |entries| && e == entries[i]
      requires Aging(entries, i, j, dt, fireImmune, v0, effects, VitalsOf())
      modifies this`hp, this`iframeTimer, this`savingGrace, this`extraLives, this`effects
      ensures Aging(entries, i + 1, j', dt, fireImmune, v0, effects, VitalsOf())
    {
      ghost var v := VitalsOf();
      j' := Shorten(entries, i, j, e, dt, v0, v);
      Afflicted(e.name, dt);
    }

    /** The map part of one turn of the duration loop: the entry loses dt and goes if spent. */
    method Shorten(ghost entries: seq<Status>, i: int, j: int, e: Status, dt: real, ghost v0: Vitals, ghost v: Vitals)
      returns (j': int)
      requires Keyed(entries) && 0 <= i < |entries| && e == entries[i]
      requires Aging(entries, i, j, dt, fireImmune, v0, effects, v)
      modifies this`effects
      ensures Aging(entries, i + 1, j', dt, fireImmune, v0, effects, Afflict(e.name, dt, fireImmune, v))
    {
      var left := e.duration - dt;
      if left <= 0.0 {
        AgingDrop(entries, i, j, dt, fireImmune, v0, effects, v);
      } else {
        AgingKeep(entries, i, j, dt, fireImmune, v0, effects, v);
      }
      effects := effects[j := Status(e.name, left)];
      if left <= 0.0 {
        RemoveStatusEffect(e.name);
        j' := j;
      } else {
        j' := j + 1;
      }
    }

    /** The damage part of one turn of the duration loop. */
    method Afflicted(name: string, dt: real)
      modifies this`hp, this`iframeTimer, this`savingGrace, this`extraLives
      ensures VitalsOf() == Afflict(name, dt, fireImmune, old(VitalsOf()))
    {
      if name == "burning" && !fireImmune {
        TakeDamage(FIRE_DAMAGE * dt);
      } else if name == "poisoned" {
        TakeDamage(5.0 * dt);
      }
    }

    /**
     * `updateStatusEffects(dt, world)`: the status step on the record under the player, as
     * StatusStep says.
     */
    method UpdateStatusEffects(dt: real, world: Physics.PhysicsWorld, rng: Rng)
      requires Keyed(effects) && world.Valid()
      modifies this`hp, this`iframeTimer, this`savingGrace, this`extraLives, this`effects, this`wet, rng`used
      ensures Keyed(effects)
      ensures (ConditionOf(), rng.used) ==
        StatusStep(old(ConditionOf()), fireImmune, Get(world.pixels, Cell(x), Cell(y)), dt, rng.draws, old(rng.used))
    {
      var px := (x / PIXEL_SIZE as real).Floor;
      var py := (y / PIXEL_SIZE as real).Floor;
      var pixel := world.GetPixel(px, py);
      Sense(pixel);
      Age(dt);
      if wet {
        var r := rng.Next();
        wet := r > 0.01 * dt;
      }
    }

    /**
     * `update(dt, world)`: the player, the world and the draws end as Frame says; the current
     * wand recharges as Wand.Update says. Particles and floating text are not modelled.
     */
    method Update(dt: real, world: Physics.PhysicsWorld, rng: Rng, polar: Unit -> (int, int))
      requires Valid() && world.Valid()
      modifies this`x, this`y, this`vx, this`vy, this`mana, this`hp, this`iframeTimer, this`savingGrace,
        this`extraLives, this`effects, this`wet, world`pixels, rng`used, wands[currentWandIndex]
      ensures Valid() && world.Valid()
      ensures (BodyOf(), world.pixels, rng.used) ==
        Frame(old(BodyOf()), TraitsOf(), keys, old(world.pixels), dt, polar, rng.draws, old(rng.used))
      ensures WandUpdated(wands[currentWandIndex], old(wands[currentWandIndex].currentMana),
        old(wands[currentWandIndex].castTimer), old(wands[currentWandIndex].rechargeTimer), dt)
    {
      Step(dt, world, rng, polar);
      RechargeWand(dt);
    }

    /**
     * The steps of `update` on the player's own fields, the world and the draws. The wand's
     * recharge, which touches none of these, sits between the aura and the mana regeneration
     * in `update`; Update performs it after them, which changes nothing.
     */
    method Step(dt: real, world: Physics.PhysicsWorld, rng: Rng, polar: Unit -> (int, int))
      requires Keyed(effects) && world.Valid()
      modifies this`x, this`y, this`vx, this`vy, this`mana, this`hp, this`iframeTimer, this`savingGrace,
        this`extraLives, this`effects, this`wet, world`pixels, rng`used
      ensures Keyed(effects) && world.Valid()
      ensures (BodyOf(), world.pixels, rng.used) ==
        Frame(old(BodyOf()), TraitsOf(), keys, old(world.pixels), dt, polar, rng.draws, old(rng.used))
    {
      ghost var b, g, k := BodyOf(), world.pixels, rng.used;
      Stride(dt, world, rng, polar);
      ghost var c, pos, aura := ConditionOf(), (x, y), (world.pixels, rng.used);
      RegenerateMana(dt);
      UpdateStatusEffects(dt, world, rng);
      assert (ConditionOf(), rng.used) ==
        StatusStep(c, fireImmune, Get(aura.0, Cell(pos.0), Cell(pos.1)), dt, rng.draws, aura.1);
    }

    /** The first steps of `update`: cool the timer, walk, and let the aura strike. */
    method Stride(dt: real, world: Physics.PhysicsWorld, rng: Rng, polar: Unit -> (int, int))
      requires world.Valid()
      modifies this`x, this`y, this`vx, this`vy, this`iframeTimer, world`pixels, rng`used
      ensures world.Valid() && VitalsOf() == Cool(old(VitalsOf()), dt)
      ensures (vx, vy) == Velocity(keys, speed)
      ensures var nx, ny := Advance(old(x), vx, dt), Advance(old(y), vy, dt);
        (x, y) == Walk(old(x), old(y), nx, ny, old(world.pixels)) &&
        (world.pixels, rng.used) == Aura(old(world.pixels), electricAura, (vx, vy), Cell(nx), Cell(ny), polar, rng.draws, old(rng.used))
    {
      if iframeTimer > 0.0 {
        iframeTimer := iframeTimer - dt;
      }
      var px, py := Move(dt, world);
      ElectricAura(px, py, world, rng, polar);
    }

    /** The wand update of `update`: the current wand recharges, the player's fields stay. */
    method RechargeWand(dt: real)
      requires Valid()
      modifies wands[currentWandIndex]
      ensures Valid()
      ensures WandUpdated(wands[currentWandIndex], old(wands[currentWandIndex].currentMana),
        old(wands[currentWandIndex].castTimer), old(wands[currentWandIndex].rechargeTimer), dt)
    {
      wands[currentWandIndex].Update(dt);
    }

    /** The mana regeneration of `update`. */
    method RegenerateMana(dt: real)
      modifies this`mana
      ensures mana == Regen(old(mana), maxMana, manaRegen, dt)
    {
      if mana < maxMana {
        mana := Min(maxMana, mana + manaRegen * dt);
      }
    }

    /** The movement of `update`: velocity from the keys, then the step when its cell is empty. */
    method Move(dt: real, world: Physics.PhysicsWorld) returns (px: int, py: int)
      requires world.Valid()
      modifies this`x, this`y, this`vx, this`vy
      ensures (vx, vy) == Velocity(keys, speed)
      ensures px == Cell(Advance(old(x), vx, dt)) && py == Cell(Advance(old(y), vy, dt))
      ensures (x, y) == Walk(old(x), old(y), Advance(old(x), vx, dt), Advance(old(y), vy, dt), world.pixels)
    {
      Steer();
      var newX := Advance(x, vx, dt);
      var newY := Advance(y, vy, dt);
      px := (newX / PIXEL_SIZE as real).Floor;
      py := (newY / PIXEL_SIZE as real).Floor;
      if world.IsEmpty(px, py) {
        x := newX;
        y := newY;
      }
    }

    /** The velocity of `update` from the keys held. */
    method Steer()
      modifies this`vx, this`vy
      ensures (vx, vy) == Velocity(keys, speed)
    {
      vx := 0.0;
      vy := 0.0;
      if "w" in keys || "arrowup" in keys {
        vy := -speed;
      }
      if "s" in keys || "arrowdown" in keys {
        vy := speed;
      }
      if "a" in keys || "arrowleft" in keys {
        vx := -speed;
      }
      if "d" in keys || "arrowright" in keys {
        vx := speed;
      }
      if vx != 0.0 && vy != 0.0 {
        vx := vx * 0.707;
        vy := vy * 0.707;
      }
    }

    /** The electric aura of `update`, as Aura says. */
    method ElectricAura(px: int, py: int, world: Physics.PhysicsWorld, rng: Rng, polar: Unit -> (int, int))
      requires world.Valid()
      modifies world`pixels, rng`used
      ensures world.Valid()
      ensures (world.pixels, rng.used) == Aura(old(world.pixels), electricAura, (vx, vy), px, py, polar, rng.draws, old(rng.used))
    {
      if electricAura && (vx != 0.0 || vy != 0.0) {
        var r := rng.Next();
        if r < 0.3 {
          var angle := rng.Next();
          var off := polar(angle);
          var ex := px + off.0;
          var ey := py + off.1;
          if world.IsEmpty(ex, ey) {
            world.SetPixel(ex, ey, ELECTRICITY);
          }
        }
      }
    }

    /**
     * `cast()`: nothing when the current wand cannot cast; otherwise the current wand casts as
     * `Wands.Wand.Cast` says (its selection, then either nothing more for an unaffordable cast or
     * the payment, the volley and the timers), and the player's mana and maximum are then those
     * of the wand.
     */
    method Cast(rng: Rng) returns (shots: seq<Wands.Shot>)
      requires Valid()
      modifies wands[currentWandIndex], this`mana, this`maxMana, rng`used
      ensures Valid()
      ensures var w := wands[currentWandIndex];
        !old(w.CanCast()) ==>
          shots == [] && mana == old(mana) && maxMana == old(maxMana) && rng.used == old(rng.used) &&
          w.currentMana == old(w.currentMana) && w.castTimer == old(w.castTimer) &&
          w.rechargeTimer == old(w.rechargeTimer) && w.spellIndex == old(w.spellIndex)
      ensures var w := wands[currentWandIndex];
        old(w.CanCast()) ==>
          mana == w.currentMana && maxMana == w.maxMana && w.spellIndex == old(w.Selection(rng.draws, rng.used)).index
      ensures var w := wands[currentWandIndex];
        old(w.CanCast()) && old(w.currentMana) < Wands.Cost(old(w.CastList(rng.draws, rng.used))) ==>
          shots == [] && rng.used == old(w.Selection(rng.draws, rng.used)).used &&
          w.currentMana == old(w.currentMana) && w.castTimer == old(w.castTimer) && w.rechargeTimer == old(w.rechargeTimer)
      ensures var w := wands[currentWandIndex];
        old(w.CanCast()) && old(w.currentMana) >= Wands.Cost(old(w.CastList(rng.draws, rng.used))) ==>
          var cast, k := old(w.CastList(rng.draws, rng.used)), old(w.Selection(rng.draws, rng.used)).used;
          var projectiles := Wands.OfKind(cast, Spells.ProjectileType);
          shots == Wands.Volley(projectiles, Wands.OfKind(cast, Spells.ModifierType), w.spread, rng.draws, k) &&
          rng.used == k + |projectiles| && w.currentMana == old(w.currentMana) - Wands.Cost(cast) &&
          w.castTimer == w.castDelay &&
          w.rechargeTimer == (if !w.shuffle && w.spellIndex == 0 then w.rechargeTime else old(w.rechargeTimer))
    {
      var w := wands[currentWandIndex];
      if !w.CanCast() {
        return [];
      }
      shots := w.Cast(rng);
      mana := w.currentMana;
      maxMana := w.maxMana;
    }

    /** `addPerk(perk)`: the perk's effect on the player's fields, and the perk kept in the list. */
    method AddPerk(perk: Perks.Perk)
      modifies this`maxHp, this`hp, this`explosionImmune, this`vampirism, this`goldMultiplier, this`manaRegen,
        this`speed, this`savingGrace, this`fireImmune, this`electricAura, this`projectileRepulsion,
        this`extraLives, this`critChance, this`perks
      ensures StatsOf() == Perks.Apply(perk.kind, old(StatsOf())) && perks == old(perks) + [perk]
    {
      match perk.kind {
        case ExtraHp =>
          maxHp := maxHp + 50.0;
          hp := hp + 50.0;
        case ExplosionImmunity => explosionImmune := true;
        case Vampirism => vampirism := true;
        case Greed => goldMultiplier := goldMultiplier * 2.0;
        case ManaBoost => manaRegen := manaRegen * 1.5;
        case FastMovement => speed := speed * 1.3;
        case SavingGrace => savingGrace := true;
        case FireImmunity => fireImmune := true;
        case Electricity => electricAura := true;
        case ProjectileRepulsion => projectileRepulsion := true;
        case ExtraLife => extraLives := extraLives + 1;
        case CriticalChance => critChance := 0.2;
      }
      perks := perks + [perk];
    }
  }
}
