/**
 * The reactive rules of `PhysicsWorld` as functions on a grid value: `createExplosion`,
 * `updateFire`, `updateElectricity`, the burning branch of `updatePixel` and the dispatch of
 * `updatePixel` itself (src/physics.js:125-169, 255-333, 346-364). Random draws are read from
 * `d(k), d(k + 1), ...` in the order the source calls `Math.random()`.
 */
module Chemistry {
  import opened Common
  import opened Config
  import opened Materials
  import opened Grid
  import opened Movement

  /** A grid and the next unused draw. */
  datatype Effect = Effect(cells: Cells, used: nat)

  // ------------------------------------------------------------- createExplosion

  /** The squared distance of an offset; the source's `Math.sqrt` is compared by squaring. */
  function Dist2(dx: int, dy: int): int {
    dx * dx + dy * dy
  }

  /** `dist <= radius`. */
  predicate InBlast(cx: int, cy: int, r: int, x: int, y: int) {
    Dist2(x - cx, y - cy) <= r * r
  }

  /** What the blast writes at (x, y): FIRE when `dist < radius * 0.5`, SMOKE further out. */
  function BlastType(cx: int, cy: int, r: int, x: int, y: int): TypeId {
    if 4 * Dist2(x - cx, y - cy) < r * r then FIRE else SMOKE
  }

  /**
   * h is g after an explosion at (cx, cy) of radius r: every cell is unchanged, or lies in the
   * disk, was not empty, and now holds its record retyped to the blast type of its place.
   */
  predicate Exploded(g: Cells, h: Cells, cx: int, cy: int, r: int) {
    SameShape(g, h) &&
    forall i, j :: 0 <= i < |g| && 0 <= j < |g[i]| ==>
      h[i][j] == g[i][j] ||
      (InBlast(cx, cy, r, j, i) && !IsEmpty(g[i][j]) && h[i][j] == Retype(g[i][j], BlastType(cx, cy, r, j, i)))
  }

  lemma ExplodedTrans(g: Cells, h: Cells, e: Cells, cx: int, cy: int, r: int)
    requires Exploded(g, h, cx, cy, r) && Exploded(h, e, cx, cy, r)
    ensures Exploded(g, e, cx, cy, r)
  {
    forall i, j | 0 <= i < |g| && 0 <= j < |g[i]|
      ensures e[i][j] == g[i][j] ||
        (InBlast(cx, cy, r, j, i) && !IsEmpty(g[i][j]) && e[i][j] == Retype(g[i][j], BlastType(cx, cy, r, j, i)))
    {
      assert |h[i]| == |g[i]|;
    }
  }

  /** One cell of the blast scan: a non-empty cell of the disk draws once and converts under 0.7. */
  function BlastCell(g: Cells, cx: int, cy: int, r: int, x: int, y: int, d: Draws, k: nat): (e: Effect)
    ensures SameFlags(g, e.cells)
  {
    if InBlast(cx, cy, r, x, y) && InBounds(g, x, y) && !IsEmpty(g[y][x]) then
      Effect(if d(k) < 0.7 then SetPixel(g, x, y, BlastType(cx, cy, r, x, y)) else g, k + 1)
    else Effect(g, k)
  }

  /** Columns x .. cx + r of row y of the blast scan. */
  function BlastRow(g: Cells, cx: int, cy: int, r: int, y: int, x: int, d: Draws, k: nat): (e: Effect)
    ensures SameFlags(g, e.cells)
    decreases cx + r + 1 - x
  {
    if x > cx + r then Effect(g, k)
    else
      var c := BlastCell(g, cx, cy, r, x, y, d, k);
      var e := BlastRow(c.cells, cx, cy, r, y, x + 1, d, c.used);
      SameFlagsTrans(g, c.cells, e.cells);
      e
  }

  /** Rows y .. cy + r of the blast scan. */
  function BlastRows(g: Cells, cx: int, cy: int, r: int, y: int, d: Draws, k: nat): (e: Effect)
    ensures SameFlags(g, e.cells)
    decreases cy + r + 1 - y
  {
    if y > cy + r then Effect(g, k)
    else
      var c := BlastRow(g, cx, cy, r, y, cx - r, d, k);
      var e := BlastRows(c.cells, cx, cy, r, y + 1, d, c.used);
      SameFlagsTrans(g, c.cells, e.cells);
      e
  }

  /** `createExplosion(cx, cy, radius)`; records keep their flags. ExplosionSpec says what changes. */
  function Explosion(g: Cells, cx: int, cy: int, r: int, d: Draws, k: nat): (e: Effect)
    ensures SameFlags(g, e.cells)
  {
    BlastRows(g, cx, cy, r, cy - r, d, k)
  }

  lemma BlastCellSpec(g: Cells, cx: int, cy: int, r: int, x: int, y: int, d: Draws, k: nat)
    ensures Exploded(g, BlastCell(g, cx, cy, r, x, y, d, k).cells, cx, cy, r)
  {
  }

  lemma {:induction false} BlastRowSpec(g: Cells, cx: int, cy: int, r: int, y: int, x: int, d: Draws, k: nat)
    ensures Exploded(g, BlastRow(g, cx, cy, r, y, x, d, k).cells, cx, cy, r)
    decreases cx + r + 1 - x
  {
    if x > cx + r {
      assert Exploded(g, g, cx, cy, r);
    } else {
      var c := BlastCell(g, cx, cy, r, x, y, d, k);
      BlastCellSpec(g, cx, cy, r, x, y, d, k);
      BlastRowSpec(c.cells, cx, cy, r, y, x + 1, d, c.used);
      ExplodedTrans(g, c.cells, BlastRow(c.cells, cx, cy, r, y, x + 1, d, c.used).cells, cx, cy, r);
    }
  }

  lemma {:induction false} BlastRowsSpec(g: Cells, cx: int, cy: int, r: int, y: int, d: Draws, k: nat)
    ensures Exploded(g, BlastRows(g, cx, cy, r, y, d, k).cells, cx, cy, r)
    decreases cy + r + 1 - y
  {
    if y > cy + r {
      assert Exploded(g, g, cx, cy, r);
    } else {
      var c := BlastRow(g, cx, cy, r, y, cx - r, d, k);
      BlastRowSpec(g, cx, cy, r, y, cx - r, d, k);
      BlastRowsSpec(c.cells, cx, cy, r, y + 1, d, c.used);
      ExplodedTrans(g, c.cells, BlastRows(c.cells, cx, cy, r, y + 1, d, c.used).cells, cx, cy, r);
    }
  }

  /**
   * `createExplosion(cx, cy, radius)` changes only non-empty cells inside the disk, each to FIRE
   * inside half the radius and to SMOKE outside it, keeping the rest of the record.
   */
  lemma ExplosionSpec(g: Cells, cx: int, cy: int, r: int, d: Draws, k: nat)
    ensures Exploded(g, Explosion(g, cx, cy, r, d, k).cells, cx, cy, r)
  {
    BlastRowsSpec(g, cx, cy, r, cy - r, d, k);
  }

  // ------------------------------------------------------------- updateFire

  /** The four orthogonal neighbours in the order the source visits them. */
  function Neighbors(x: int, y: int): seq<(int, int)> {
    [(x - 1, y), (x + 1, y), (x, y - 1), (x, y + 1)]
  }

  /** The burning record `{burning: true, burnTime: material.burnTime}` a neighbour receives. */
  function Ignite(p: Pixel): Pixel {
    p.(data := Burning(MaterialAt(p).burnTime))
  }

  /** A grid, the next unused draw, and whether the neighbour loop returned early. */
  datatype Spread = Spread(cells: Cells, used: nat, stopped: bool)

  /**
   * The ignition test for the neighbour at n: a flammable neighbour takes one draw and, under
   * FIRE_SPREAD_CHANCE, gets a fresh burning record unless it already burns. Only that record can
   * change, and never its type.
   */
  function Kindle(g: Cells, n: (int, int), d: Draws, k: nat): (e: Effect)
    requires InBounds(g, n.0, n.1)
    ensures OnlyAt(g, e.cells, n.0, n.1) && SameFlags(g, e.cells) && k <= e.used <= k + 1
    ensures e.cells[n.1][n.0] == g[n.1][n.0] ||
      (MaterialAt(g[n.1][n.0]).flammable && !IsBurning(g[n.1][n.0]) && e.cells[n.1][n.0] == Ignite(g[n.1][n.0]))
  {
    var nb := g[n.1][n.0];
    if !MaterialAt(nb).flammable then Effect(g, k)
    else if d(k) < FIRE_SPREAD_CHANCE && !IsBurning(nb) then Effect(Put(g, n.0, n.1, Ignite(nb)), k + 1)
    else Effect(g, k + 1)
  }

  /**
   * Water puts the fire at (x, y) out: the fire cell becomes STEAM, then one draw turns the water
   * cell at n into STEAM (under 0.5) or AIR, and the loop ends.
   */
  function Quench(g: Cells, x: int, y: int, n: (int, int), d: Draws, k: nat): (s: Spread)
    requires InBounds(g, x, y) && InBounds(g, n.0, n.1) && n != (x, y)
    ensures s.stopped && SameFlags(g, s.cells) && s.used == k + 1
    ensures s.cells[y][x].kind == STEAM
    ensures s.cells[n.1][n.0].kind == STEAM || s.cells[n.1][n.0].kind == AIR
  {
    var h := SetPixel(g, x, y, STEAM);
    var r := SetPixel(h, n.0, n.1, if d(k) < 0.5 then STEAM else AIR);
    SameFlagsTrans(g, h, r);
    Spread(r, k + 1, true)
  }

  /**
   * The neighbour loop of `updateFire(x, y)` from neighbour m on: ignite a flammable neighbour,
   * then stop at water (Quench) or at an explosive (explosion of radius 8 centred on it).
   */
  function SpreadFire(g: Cells, x: int, y: int, m: nat, d: Draws, k: nat): (s: Spread)
    requires InBounds(g, x, y)
    ensures SameFlags(g, s.cells)
    decreases 4 - m
  {
    if m >= 4 then Spread(g, k, false)
    else
      var n := Neighbors(x, y)[m];
      if !InBounds(g, n.0, n.1) then SpreadFire(g, x, y, m + 1, d, k)
      else
        var nb := g[n.1][n.0];
        var e := Kindle(g, n, d, k);
        var s :=
          if nb.kind == WATER then Quench(e.cells, x, y, n, d, e.used)
          else if MaterialAt(nb).explosive then
            var b := Explosion(e.cells, n.0, n.1, 8, d, e.used);
            Spread(b.cells, b.used, true)
          else SpreadFire(e.cells, x, y, m + 1, d, e.used);
        SameFlagsTrans(g, e.cells, s.cells);
        s
  }

  /**
   * `updateFire(x, y, dt)`, the lifetime already advanced: past FIRE_LIFETIME the cell turns to
   * SMOKE or AIR; otherwise the neighbour loop, then, unless it returned early and below the top
   * row, a 30% chance to swap into an empty cell above.
   */
  function FireStep(g: Cells, x: int, y: int, d: Draws, k: nat): (o: Outcome)
    requires InBounds(g, x, y)
    ensures Tracks(g, x, y, o)
  {
    if g[y][x].lifetime > FIRE_LIFETIME then
      Outcome(SetPixel(g, x, y, if d(k) < 0.5 then SMOKE else AIR), k + 1, x, y)
    else
      var s := SpreadFire(g, x, y, 0, d, k);
      if s.stopped then Outcome(s.cells, s.used, x, y)
      else if y > 0 && d(s.used) < 0.3 && IsEmptyAt(s.cells, x, y - 1) then
        Outcome(Swap(s.cells, x, y, x, y - 1), s.used + 1, x, y - 1)
      else Outcome(s.cells, if y > 0 then s.used + 1 else s.used, x, y)
  }

  // ------------------------------------------------------------- updateElectricity

  /**
   * One neighbour n of `updateElectricity`: when it is inside the grid, conducts and is not
   * ELECTRICITY itself, one draw, and under 0.5 ELECTRICITY goes into the cell above it if that is
   * empty, else into the cell below it if that is empty.
   */
  function Current(g: Cells, n: (int, int), d: Draws, k: nat): (e: Effect)
    ensures SameFlags(g, e.cells)
  {
    if !InBounds(g, n.0, n.1) || g[n.1][n.0].kind == ELECTRICITY || !MaterialAt(g[n.1][n.0]).conductive then
      Effect(g, k)
    else if d(k) >= 0.5 then Effect(g, k + 1)
    else if IsEmptyAt(g, n.0, n.1 - 1) then Effect(SetPixel(g, n.0, n.1 - 1, ELECTRICITY), k + 1)
    else if IsEmptyAt(g, n.0, n.1 + 1) then Effect(SetPixel(g, n.0, n.1 + 1, ELECTRICITY), k + 1)
    else Effect(g, k + 1)
  }

  /** The neighbour loop of `updateElectricity(x, y, dt)` from neighbour m on. */
  function Conduct(g: Cells, x: int, y: int, m: nat, d: Draws, k: nat): (e: Effect)
    ensures SameFlags(g, e.cells)
    decreases 4 - m
  {
    if m >= 4 then Effect(g, k)
    else
      var c := Current(g, Neighbors(x, y)[m], d, k);
      var e := Conduct(c.cells, x, y, m + 1, d, c.used);
      SameFlagsTrans(g, c.cells, e.cells);
      e
  }

  /**
   * `updateElectricity(x, y, dt)`, the lifetime already advanced: past 0.2 seconds the cell turns
   * to AIR; otherwise current flows past each conductive neighbour.
   */
  function ElectricityStep(g: Cells, x: int, y: int, d: Draws, k: nat): (o: Outcome)
    requires InBounds(g, x, y)
    ensures Tracks(g, x, y, o) && SameFlags(g, o.cells)
  {
    if g[y][x].lifetime > 0.2 then Outcome(SetPixel(g, x, y, AIR), k, x, y)
    else
      var e := Conduct(g, x, y, 0, d, k);
      Outcome(e.cells, e.used, x, y)
  }

  // ------------------------------------------------------------- updatePixel

  /** A grid, the next unused draw, and whether the burning branch returned. */
  datatype Burnt = Burnt(cells: Cells, used: nat, done: bool)

  /**
   * The burning branch of `updatePixel`: the remaining burn time drops by dt; at or below 0 the
   * cell turns to FIRE and processing ends; otherwise one draw, and under 0.2 (below the top row)
   * FIRE is written into an empty cell above.
   */
  function Burn(g: Cells, x: int, y: int, dt: real, d: Draws, k: nat): (b: Burnt)
    requires InBounds(g, x, y)
    ensures SameFlags(g, b.cells)
  {
    var p := g[y][x];
    if !p.data.Burning? then Burnt(g, k, false)
    else
      var left := p.data.burnTime - dt;
      var g1 := Put(g, x, y, p.(data := Burning(left)));
      assert SameFlags(g, g1);
      if left <= 0.0 then
        Burnt(SetPixel(g1, x, y, FIRE), k, true)
      else if d(k) < 0.2 && y > 0 && IsEmptyAt(g1, x, y - 1) then
        Burnt(SetPixel(g1, x, y - 1, FIRE), k + 1, false)
      else Burnt(g1, k + 1, false)
  }

  /** The record at (x, y) with its lifetime advanced by dt. */
  function Age(g: Cells, x: int, y: int, dt: real): (r: Cells)
    requires InBounds(g, x, y)
    ensures SameFlags(g, r)
  {
    var r := Put(g, x, y, g[y][x].(lifetime := g[y][x].lifetime + dt));
    assert SameFlags(g, r);
    r
  }

  /**
   * The movement rule for material m at (x, y): powders fall, liquids fall and flow, gases that do
   * not spread rise; anything else stays.
   */
  function Move(g: Cells, x: int, y: int, m: Material, d: Draws, k: nat): (o: Outcome)
    requires InBounds(g, x, y)
    ensures Tracks(g, x, y, o)
  {
    if m.state == Powder then PowderStep(g, x, y, d, k)
    else if m.state == Liquid then LiquidStep(g, x, y, d, k)
    else if m.state == Gas && !m.spreads then GasStep(g, x, y, d, k)
    else Outcome(g, k, x, y)
  }

  /**
   * `updatePixel(x, y, dt)`: advance the lifetime; FIRE and ELECTRICITY run their own rules;
   * otherwise the burning branch, then the movement rule of the material's phase (gases that
   * spread do not move).
   */
  function PixelStep(g: Cells, x: int, y: int, dt: real, d: Draws, k: nat): (o: Outcome)
    requires InBounds(g, x, y)
    ensures Tracks(g, x, y, o)
  {
    var p := g[y][x];
    var g0 := Age(g, x, y, dt);
    if p.kind == FIRE then FireStep(g0, x, y, d, k)
    else if p.kind == ELECTRICITY then ElectricityStep(g0, x, y, d, k)
    else
      var b := Burn(g0, x, y, dt, d, k);
      if b.done then Outcome(b.cells, b.used, x, y)
      else Move(b.cells, x, y, MaterialAt(p), d, b.used)
  }

  /** A fire step keeps the number of flagged records: it retypes records or swaps two. */
  lemma FireCensus(g: Cells, x: int, y: int, d: Draws, k: nat)
    requires InBounds(g, x, y)
    ensures Flagged(FireStep(g, x, y, d, k).cells) == Flagged(g)
  {
    if g[y][x].lifetime > FIRE_LIFETIME {
      SameFlagsFlagged(g, FireStep(g, x, y, d, k).cells);
    } else {
      var s := SpreadFire(g, x, y, 0, d, k);
      SameFlagsFlagged(g, s.cells);
      if !s.stopped && y > 0 && d(s.used) < 0.3 && IsEmptyAt(s.cells, x, y - 1) {
        SwapCensus(s.cells, x, y, x, y - 1);
      }
    }
  }

  /**
   * One `updatePixel` call keeps the number of flagged records, so flagging the processed record
   * afterwards raises the count by exactly one.
   */
  lemma StepCensus(g: Cells, x: int, y: int, dt: real, d: Draws, k: nat)
    requires InBounds(g, x, y)
    ensures Flagged(PixelStep(g, x, y, dt, d, k).cells) == Flagged(g)
  {
    var p := g[y][x];
    var g0 := Age(g, x, y, dt);
    SameFlagsFlagged(g, g0);
    if p.kind == FIRE {
      FireCensus(g0, x, y, d, k);
    } else if p.kind == ELECTRICITY {
      SameFlagsFlagged(g0, ElectricityStep(g0, x, y, d, k).cells);
    } else {
      var b := Burn(g0, x, y, dt, d, k);
      SameFlagsFlagged(g0, b.cells);
      var m := MaterialAt(p);
      if b.done {
      } else if m.state == Powder || m.state == Liquid {
        MovesConserve(b.cells, x, y, d, b.used);
      } else if m.state == Gas && !m.spreads {
        ApplyCensus(b.cells, x, y, GasChoice(b.cells, x, y, d, b.used));
      }
    }
  }

  // ------------------------------------------------------------- properties

  /** h has g's shape and the same type in every cell. */
  predicate SameKinds(g: Cells, h: Cells) {
    SameShape(g, h) && forall i, j :: 0 <= i < |g| && 0 <= j < |g[i]| ==> h[i][j].kind == g[i][j].kind
  }

  /** The neighbour at c does not end the fire's neighbour loop: outside, or neither water nor explosive. */
  predicate Harmless(g: Cells, c: (int, int)) {
    !InBounds(g, c.0, c.1) || (g[c.1][c.0].kind != WATER && !MaterialAt(g[c.1][c.0]).explosive)
  }

  /**
   * While the fire cell is processed, its record stays FIRE, unless the loop returned early after
   * turning it to STEAM (an explosion next to it rewrites it as FIRE, being one cell away).
   */
  lemma {:induction false} SpreadKeepsFire(g: Cells, x: int, y: int, m: nat, d: Draws, k: nat)
    requires InBounds(g, x, y) && g[y][x].kind == FIRE
    ensures var s := SpreadFire(g, x, y, m, d, k);
      s.cells[y][x].kind == FIRE || (s.stopped && s.cells[y][x].kind == STEAM)
    decreases 4 - m
  {
    if m < 4 {
      var n := Neighbors(x, y)[m];
      NeighborDist(x, y, m);
      if !InBounds(g, n.0, n.1) {
        SpreadKeepsFire(g, x, y, m + 1, d, k);
      } else {
        var nb := g[n.1][n.0];
        var e := Kindle(g, n, d, k);
        assert e.cells[y][x] == g[y][x];
        if nb.kind != WATER && MaterialAt(nb).explosive {
          BlastBesideFire(e.cells, x, y, n, d, e.used);
        } else if nb.kind != WATER {
          SpreadKeepsFire(e.cells, x, y, m + 1, d, e.used);
        }
      }
    }
  }

  lemma NeighborDist(x: int, y: int, m: nat)
    requires m < 4
    ensures Dist2(x - Neighbors(x, y)[m].0, y - Neighbors(x, y)[m].1) == 1
  {
  }

  /** An explosion of radius 8 centred next to a fire cell leaves that cell FIRE. */
  lemma BlastBesideFire(g: Cells, x: int, y: int, n: (int, int), d: Draws, k: nat)
    requires InBounds(g, x, y) && g[y][x].kind == FIRE && Dist2(x - n.0, y - n.1) == 1
    ensures Explosion(g, n.0, n.1, 8, d, k).cells[y][x].kind == FIRE
  {
    var e := Explosion(g, n.0, n.1, 8, d, k);
    ExplosionSpec(g, n.0, n.1, 8, d, k);
    assert BlastType(n.0, n.1, 8, x, y) == FIRE;
    assert e.cells[y][x] == g[y][x] || e.cells[y][x] == Retype(g[y][x], FIRE);
  }

  /**
   * Fire lifetime: a fire record past FIRE_LIFETIME turns into SMOKE (draw under 0.5) or AIR, in
   * place, and nothing else changes; before that the record processed stays FIRE or, next to
   * water, turns to STEAM — never SMOKE or AIR.
   */
  lemma FireLifetime(g: Cells, x: int, y: int, d: Draws, k: nat)
    requires InBounds(g, x, y) && g[y][x].kind == FIRE
    ensures var o := FireStep(g, x, y, d, k);
      (g[y][x].lifetime > FIRE_LIFETIME ==>
         (o.x, o.y) == (x, y) && OnlyAt(g, o.cells, x, y) &&
         o.cells[y][x] == Retype(g[y][x], if d(k) < 0.5 then SMOKE else AIR)) &&
      (g[y][x].lifetime <= FIRE_LIFETIME ==>
         o.cells[o.y][o.x].kind == FIRE || o.cells[o.y][o.x].kind == STEAM)
  {
    if g[y][x].lifetime <= FIRE_LIFETIME {
      SpreadKeepsFire(g, x, y, 0, d, k);
    }
  }

  lemma {:induction false} SpreadIntoWater(g: Cells, x: int, y: int, a: nat, m: nat, d: Draws, k: nat)
    requires InBounds(g, x, y) && a <= m < 4
    requires InBounds(g, Neighbors(x, y)[m].0, Neighbors(x, y)[m].1)
    requires g[Neighbors(x, y)[m].1][Neighbors(x, y)[m].0].kind == WATER
    requires forall j :: a <= j < m ==> Harmless(g, Neighbors(x, y)[j])
    ensures var s := SpreadFire(g, x, y, a, d, k);
      var n := Neighbors(x, y)[m];
      s.stopped && s.cells[y][x].kind == STEAM && (s.cells[n.1][n.0].kind == STEAM || s.cells[n.1][n.0].kind == AIR)
    decreases m - a
  {
    var c := Neighbors(x, y)[a];
    if a < m {
      assert Harmless(g, c);
      if InBounds(g, c.0, c.1) {
        var e := Kindle(g, c, d, k);
        var g1, k1 := e.cells, e.used;
        assert SameKinds(g, g1);
        forall j | a + 1 <= j < m
          ensures Harmless(g1, Neighbors(x, y)[j])
        {
          assert Harmless(g, Neighbors(x, y)[j]);
        }
        SpreadIntoWater(g1, x, y, a + 1, m, d, k1);
      } else {
        SpreadIntoWater(g, x, y, a + 1, m, d, k);
      }
    }
  }

  /**
   * Water puts fire out: when neighbour m (in visiting order) is WATER and no neighbour before it
   * is water or explosive, the fire cell becomes STEAM, the water cell STEAM or AIR, and the rule
   * ends there (the record stays in place).
   */
  lemma FireMeetsWater(g: Cells, x: int, y: int, m: nat, d: Draws, k: nat)
    requires InBounds(g, x, y) && g[y][x].lifetime <= FIRE_LIFETIME && m < 4
    requires InBounds(g, Neighbors(x, y)[m].0, Neighbors(x, y)[m].1)
    requires g[Neighbors(x, y)[m].1][Neighbors(x, y)[m].0].kind == WATER
    requires forall j :: 0 <= j < m ==> Harmless(g, Neighbors(x, y)[j])
    ensures var o := FireStep(g, x, y, d, k);
      var n := Neighbors(x, y)[m];
      (o.x, o.y) == (x, y) && o.cells[y][x].kind == STEAM &&
      (o.cells[n.1][n.0].kind == STEAM || o.cells[n.1][n.0].kind == AIR)
  {
    SpreadIntoWater(g, x, y, 0, m, d, k);
  }

  /**
   * h is g with some flammable, not yet burning neighbours of (x, y) given a burning record; no
   * type changes.
   */
  predicate Ignited(g: Cells, h: Cells, x: int, y: int) {
    SameShape(g, h) &&
    forall i, j :: 0 <= i < |g| && 0 <= j < |g[i]| ==>
      h[i][j] == g[i][j] ||
      ((j, i) in Neighbors(x, y) && MaterialAt(g[i][j]).flammable && !IsBurning(g[i][j]) &&
       h[i][j] == Ignite(g[i][j]))
  }

  lemma {:induction false} SpreadQuietly(g: Cells, x: int, y: int, a: nat, d: Draws, k: nat)
    requires InBounds(g, x, y)
    requires forall j :: a <= j < 4 ==> Harmless(g, Neighbors(x, y)[j])
    ensures var s := SpreadFire(g, x, y, a, d, k);
      !s.stopped && Ignited(g, s.cells, x, y)
    decreases 4 - a
  {
    if a < 4 {
      var c := Neighbors(x, y)[a];
      assert Harmless(g, c);
      if InBounds(g, c.0, c.1) {
        var e := Kindle(g, c, d, k);
        var g1, k1 := e.cells, e.used;
        assert SameKinds(g, g1);
        forall j | a + 1 <= j < 4
          ensures Harmless(g1, Neighbors(x, y)[j])
        {
          assert Harmless(g, Neighbors(x, y)[j]);
        }
        SpreadQuietly(g1, x, y, a + 1, d, k1);
        var h := SpreadFire(g1, x, y, a + 1, d, k1).cells;
        forall i, j | 0 <= i < |g| && 0 <= j < |g[i]|
          ensures h[i][j] == g[i][j] ||
            ((j, i) in Neighbors(x, y) && MaterialAt(g[i][j]).flammable && !IsBurning(g[i][j]) &&
             h[i][j] == Ignite(g[i][j]))
        {
          assert g1[i][j] == g[i][j] || (i, j) == (c.1, c.0);
        }
      } else {
        SpreadQuietly(g, x, y, a + 1, d, k);
      }
    }
  }

  /**
   * With no water or explosive neighbour, a live fire only ignites flammable, not yet burning
   * neighbours, and then either stays or, below the top row, swaps into the cell directly above,
   * which was empty.
   */
  lemma FireSpreadsAndRises(g: Cells, x: int, y: int, d: Draws, k: nat)
    requires InBounds(g, x, y) && g[y][x].lifetime <= FIRE_LIFETIME
    requires forall j :: 0 <= j < 4 ==> Harmless(g, Neighbors(x, y)[j])
    ensures var s := SpreadFire(g, x, y, 0, d, k);
      var o := FireStep(g, x, y, d, k);
      Ignited(g, s.cells, x, y) &&
      ((o.cells == s.cells && (o.x, o.y) == (x, y)) ||
       (y > 0 && IsEmptyAt(g, x, y - 1) && o.cells == Swap(s.cells, x, y, x, y - 1) && (o.x, o.y) == (x, y - 1)))
  {
    SpreadQuietly(g, x, y, 0, d, k);
    var s := SpreadFire(g, x, y, 0, d, k);
    if y > 0 && IsEmptyAt(s.cells, x, y - 1) {
      assert s.cells[y - 1][x] == g[y - 1][x] || s.cells[y - 1][x] == Ignite(g[y - 1][x]);
    }
  }

  /**
   * The neighbour at c carries current to (j, i): it is in bounds, conductive and not itself
   * ELECTRICITY, and (j, i) is the cell directly above or below it.
   */
  predicate Feeds(g: Cells, c: (int, int), j: int, i: int) {
    InBounds(g, c.0, c.1) && g[c.1][c.0].kind != ELECTRICITY && MaterialAt(g[c.1][c.0]).conductive &&
    j == c.0 && (i == c.1 - 1 || i == c.1 + 1)
  }

  /** Some neighbour of (x, y) from the m-th on feeds (j, i). */
  predicate FedBy(g: Cells, x: int, y: int, m: nat, j: int, i: int) {
    exists n :: m <= n < 4 && Feeds(g, Neighbors(x, y)[n], j, i)
  }

  /**
   * h is g after current from (x, y) flowed past its neighbours from the m-th on: every cell is
   * unchanged, or was empty, is fed by such a neighbour, and now holds ELECTRICITY.
   */
  predicate Conducted(g: Cells, h: Cells, x: int, y: int, m: nat) {
    SameShape(g, h) &&
    forall i, j :: 0 <= i < |g| && 0 <= j < |g[i]| ==>
      h[i][j] == g[i][j] ||
      (IsEmpty(g[i][j]) && h[i][j] == Retype(g[i][j], ELECTRICITY) && FedBy(g, x, y, m, j, i))
  }

  lemma ConductedWiden(g: Cells, h: Cells, x: int, y: int, m: nat)
    requires Conducted(g, h, x, y, m + 1)
    ensures Conducted(g, h, x, y, m)
  {
    forall i, j | 0 <= i < |g| && 0 <= j < |g[i]| && h[i][j] != g[i][j]
      ensures FedBy(g, x, y, m, j, i)
    {
      var q :| m + 1 <= q < 4 && Feeds(g, Neighbors(x, y)[q], j, i);
    }
  }

  lemma ConductedTrans(g: Cells, g1: Cells, h: Cells, x: int, y: int, m: nat)
    requires Conducted(g, g1, x, y, m) && Conducted(g1, h, x, y, m + 1)
    ensures Conducted(g, h, x, y, m)
  {
    forall i, j | 0 <= i < |g| && 0 <= j < |g[i]|
      ensures h[i][j] == g[i][j] ||
        (IsEmpty(g[i][j]) && h[i][j] == Retype(g[i][j], ELECTRICITY) && FedBy(g, x, y, m, j, i))
    {
      assert |g1[i]| == |g[i]|;
      if g1[i][j] == g[i][j] && h[i][j] != g1[i][j] {
        var q :| m + 1 <= q < 4 && Feeds(g1, Neighbors(x, y)[q], j, i);
        var c := Neighbors(x, y)[q];
        assert |g1[c.1]| == |g[c.1]|;
        assert g1[c.1][c.0] == g[c.1][c.0];
        assert Feeds(g, c, j, i);
      }
    }
  }

  /** The first neighbour's write, if any, goes into an empty cell it feeds. */
  lemma ConductFirst(g: Cells, x: int, y: int, m: nat, t: (int, int))
    requires m < 4 && Feeds(g, Neighbors(x, y)[m], t.0, t.1) && IsEmptyAt(g, t.0, t.1)
    ensures Conducted(g, SetPixel(g, t.0, t.1, ELECTRICITY), x, y, m)
  {
  }

  lemma {:induction false} ConductSpec(g: Cells, x: int, y: int, m: nat, d: Draws, k: nat)
    ensures Conducted(g, Conduct(g, x, y, m, d, k).cells, x, y, m)
    decreases 4 - m
  {
    if m < 4 {
      var n := Neighbors(x, y)[m];
      var c := Current(g, n, d, k);
      if c.cells == g {
        ConductSpec(g, x, y, m + 1, d, c.used);
        ConductedWiden(g, Conduct(g, x, y, m + 1, d, c.used).cells, x, y, m);
      } else {
        if IsEmptyAt(g, n.0, n.1 - 1) {
          ConductFirst(g, x, y, m, (n.0, n.1 - 1));
        } else {
          ConductFirst(g, x, y, m, (n.0, n.1 + 1));
        }
        ConductSpec(c.cells, x, y, m + 1, d, c.used);
        ConductedTrans(g, c.cells, Conduct(c.cells, x, y, m + 1, d, c.used).cells, x, y, m);
      }
    }
  }

  /**
   * Electricity: past 0.2 seconds the cell turns to AIR in place and nothing else changes;
   * otherwise the rule only writes ELECTRICITY into empty cells directly above or below an
   * orthogonal neighbour that conducts and is not electricity itself.
   */
  lemma ElectricityRule(g: Cells, x: int, y: int, d: Draws, k: nat)
    requires InBounds(g, x, y)
    ensures var o := ElectricityStep(g, x, y, d, k);
      (o.x, o.y) == (x, y) &&
      (g[y][x].lifetime > 0.2 ==> OnlyAt(g, o.cells, x, y) && o.cells[y][x] == Retype(g[y][x], AIR)) &&
      (g[y][x].lifetime <= 0.2 ==> Conducted(g, o.cells, x, y, 0))
  {
    ConductSpec(g, x, y, 0, d, k);
  }

  /**
   * The burning branch: the remaining burn time drops by dt. At or below 0 the cell turns to FIRE
   * in place (keeping its spent burning record) and processing ends. Otherwise the record keeps
   * its type, and the only other change is FIRE written into the empty cell directly above.
   */
  lemma BurnRule(g: Cells, x: int, y: int, dt: real, d: Draws, k: nat)
    requires InBounds(g, x, y) && IsBurning(g[y][x])
    ensures var b := Burn(g, x, y, dt, d, k);
      var left := g[y][x].data.burnTime - dt;
      (left <= 0.0 ==>
         b.done && OnlyAt(g, b.cells, x, y) &&
         b.cells[y][x] == Retype(g[y][x], FIRE).(data := Burning(left))) &&
      (left > 0.0 ==>
         !b.done && b.cells[y][x] == g[y][x].(data := Burning(left)) &&
         forall i, j :: 0 <= i < |g| && 0 <= j < |g[i]| && (i, j) != (y, x) ==>
           b.cells[i][j] == g[i][j] ||
           ((i, j) == (y - 1, x) && IsEmpty(g[i][j]) && b.cells[i][j] == Retype(g[i][j], FIRE)))
  {
  }

  /**
   * A record that burnt out and became FIRE keeps its spent burning record; when that fire
   * expires into SMOKE, the smoke's next step turns it straight back into FIRE.
   */
  lemma SpentSmokeReignites(g: Cells, x: int, y: int, dt: real, d: Draws, k: nat)
    requires InBounds(g, x, y) && g[y][x].kind == SMOKE
    requires g[y][x].data.Burning? && g[y][x].data.burnTime <= 0.0 && dt >= 0.0
    ensures var o := PixelStep(g, x, y, dt, d, k);
      (o.x, o.y) == (x, y) && o.cells[y][x].kind == FIRE
  {
    var g0: Cells := Age(g, x, y, dt);
    assert g0[y][x].data == g[y][x].data;
  }

  /** A solid record that is not burning never moves: its step only advances its lifetime. */
  lemma SolidsStay(g: Cells, x: int, y: int, dt: real, d: Draws, k: nat)
    requires InBounds(g, x, y) && IsSolid(g[y][x]) && !IsBurning(g[y][x])
    ensures var o := PixelStep(g, x, y, dt, d, k);
      (o.x, o.y) == (x, y) && o.used == k &&
      OnlyAt(g, o.cells, x, y) && o.cells[y][x] == g[y][x].(lifetime := g[y][x].lifetime + dt)
  {
    var p := g[y][x];
    SearchFinds(p.kind, 0);
    assert p.kind != FIRE && p.kind != ELECTRICITY;
    var g0: Cells := Age(g, x, y, dt);
    assert g0[y][x].data == p.data;
    assert Burn(g0, x, y, dt, d, k) == Burnt(g0, k, false);
    assert Move(g0, x, y, MaterialAt(p), d, k) == Outcome(g0, k, x, y);
  }
}
