/**
 * `PhysicsWorld` (src/physics.js): the grid of cell records, changed in place by `setPixel` and
 * `swap`, and the rules that run over it each frame. Every method is proved to leave the world in
 * the state the matching function of Grid, Movement, Chemistry or Scheduler computes from the old
 * state and the random draws, so the properties proved there hold of the class.
 *
 * A cell record is a value here. Where the source keeps a reference to a record while a rule moves
 * it, the rule methods return the record's final position instead.
 */
module Physics {
  import opened Common
  import opened Materials
  import opened Grid
  import opened Movement
  import opened Chemistry
  import opened Scheduler
  import opened Random

  class PhysicsWorld {
    const width: nat
    const height: nat
    var pixels: Cells
    var frameCount: nat

    /** The grid has `height` rows of `width` cells. */
    predicate Valid()
      reads this
    {
      |pixels| == height && Rect(pixels, width)
    }

    /** The constructor's grid: every cell a fresh AIR record (terrain generation is not modelled). */
    constructor (width: nat, height: nat)
      ensures Valid() && this.width == width && this.height == height && frameCount == 0
      ensures forall y, x :: 0 <= y < height && 0 <= x < width ==> pixels[y][x] == NewPixel(AIR)
    {
      this.width := width;
      this.height := height;
      frameCount := 0;
      var rows: Cells := [];
      var y := 0;
      while y < height
        invariant 0 <= y <= height && |rows| == y
        invariant forall i, j :: 0 <= i < y && 0 <= j < |rows[i]| ==> rows[i][j] == NewPixel(AIR)
        invariant Rect(rows, width)
      {
        var row: seq<Pixel> := [];
        var x := 0;
        while x < width
          invariant 0 <= x <= width && |row| == x
          invariant forall j :: 0 <= j < x ==> row[j] == NewPixel(AIR)
        {
          row := row + [NewPixel(AIR)];
          x := x + 1;
        }
        rows := rows + [row];
        y := y + 1;
      }
      pixels := rows;
    }

    /** `getPixel(x, y)`: the record at (x, y), or None (`null`) outside the grid. */
    function GetPixel(x: int, y: int): (r: Option<Pixel>)
      reads this
      requires Valid()
      ensures r.None? <==> x < 0 || x >= width || y < 0 || y >= height
      ensures r.Some? ==> r.value == pixels[y][x]
    {
      if x < 0 || x >= width || y < 0 || y >= height then None else Some(pixels[y][x])
    }

    /** `isEmpty(x, y)`: (x, y) is a cell of the grid and holds AIR. */
    function IsEmpty(x: int, y: int): (b: bool)
      reads this
      requires Valid()
      ensures b <==> 0 <= x < width && 0 <= y < height && pixels[y][x].kind == AIR
      ensures b == IsEmptyAt(pixels, x, y)
    {
      var p := GetPixel(x, y);
      p.Some? && Materials.IsEmpty(p.value)
    }

    /**
     * `canDisplace(x1, y1, x2, y2)`: both cells exist, the target is not solid, and it is AIR or
     * strictly lighter than the record at (x1, y1).
     */
    function CanDisplace(x1: int, y1: int, x2: int, y2: int): (b: bool)
      reads this
      requires Valid()
      ensures b <==>
        0 <= x1 < width && 0 <= y1 < height && 0 <= x2 < width && 0 <= y2 < height &&
        !IsSolid(pixels[y2][x2]) &&
        (pixels[y2][x2].kind == AIR || MaterialAt(pixels[y1][x1]).density > MaterialAt(pixels[y2][x2]).density)
      ensures b == Grid.CanDisplace(pixels, x1, y1, x2, y2)
    {
      var p1, p2 := GetPixel(x1, y1), GetPixel(x2, y2);
      if p1.None? || p2.None? then false
      else if IsSolid(p2.value) then false
      else Materials.IsEmpty(p2.value) || MaterialAt(p1.value).density > MaterialAt(p2.value).density
    }

    /**
     * `setPixel(x, y, type)`: outside the grid nothing happens; inside, only that record changes,
     * and only its type and lifetime (its burning record and `updated` flag stay).
     */
    method SetPixel(x: int, y: int, t: TypeId)
      requires Valid()
      modifies this`pixels
      ensures Valid()
      ensures pixels == Grid.SetPixel(old(pixels), x, y, t)
      ensures !(0 <= x < width && 0 <= y < height) ==> pixels == old(pixels)
      ensures 0 <= x < width && 0 <= y < height ==>
        OnlyAt(old(pixels), pixels, x, y) &&
        pixels[y][x] == old(pixels[y][x]).(kind := t, lifetime := 0.0)
    {
      if x < 0 || x >= width || y < 0 || y >= height {
        return;
      }
      pixels := pixels[y := pixels[y][x := pixels[y][x].(kind := t, lifetime := 0.0)]];
    }

    /** `swap(x1, y1, x2, y2)`: the two records trade places, nothing else changes. */
    method Swap(x1: int, y1: int, x2: int, y2: int)
      requires Valid() && InBounds(pixels, x1, y1) && InBounds(pixels, x2, y2)
      modifies this`pixels
      ensures Valid()
      ensures pixels == Grid.Swap(old(pixels), x1, y1, x2, y2)
    {
      var temp := pixels[y1][x1];
      pixels := pixels[y1 := pixels[y1][x1 := pixels[y2][x2]]];
      pixels := pixels[y2 := pixels[y2][x2 := temp]];
      CellwiseEqual(pixels, Grid.Swap(old(pixels), x1, y1, x2, y2));
    }

    /**
     * `spawnParticle(x, y, material)`: the material is written into the cell under the floored
     * position when that cell exists and is empty (the velocity arguments are unused).
     */
    method SpawnParticle(x: real, y: real, t: TypeId)
      requires Valid()
      modifies this`pixels
      ensures Valid()
      ensures IsEmptyAt(old(pixels), x.Floor, y.Floor) ==> pixels == Grid.SetPixel(old(pixels), x.Floor, y.Floor, t)
      ensures !IsEmptyAt(old(pixels), x.Floor, y.Floor) ==> pixels == old(pixels)
    {
      var px, py := x.Floor, y.Floor;
      if IsEmpty(px, py) {
        SetPixel(px, py, t);
      }
    }

    // ----------------------------------------------------------- movement

    /**
     * The pair of tests the movement rules repeat: move into target a when the record at (x, y)
     * can displace it, else into target b, else stay; (nx, ny) is where the record now sits.
     */
    method TryPair(x: int, y: int, a: (int, int), b: (int, int)) returns (moved: bool, nx: int, ny: int)
      requires Valid() && InBounds(pixels, x, y)
      modifies this`pixels
      ensures Valid()
      ensures var c := First(old(pixels), x, y, [a, b], 0);
        moved == c.act.MoveTo? && pixels == Apply(old(pixels), x, y, c).cells &&
        (nx, ny) == (Apply(old(pixels), x, y, c).x, Apply(old(pixels), x, y, c).y)
    {
      FirstOfTwo(pixels, x, y, a, b, 0);
      moved, nx, ny := true, a.0, a.1;
      if CanDisplace(x, y, a.0, a.1) {
        Swap(x, y, a.0, a.1);
        return;
      }
      nx, ny := b.0, b.1;
      if CanDisplace(x, y, b.0, b.1) {
        Swap(x, y, b.0, b.1);
        return;
      }
      moved, nx, ny := false, x, y;
    }

    /**
     * `updatePowder(x, y)`: the grid and the draws taken are those of PowderStep; (nx, ny) is
     * where the record now sits.
     */
    method UpdatePowder(x: int, y: int, rng: Rng) returns (nx: int, ny: int)
      requires Valid() && InBounds(pixels, x, y)
      modifies this`pixels, rng`used
      ensures Valid()
      ensures var o := PowderStep(old(pixels), x, y, rng.draws, old(rng.used));
        pixels == o.cells && rng.used == o.used && (nx, ny) == (o.x, o.y)
    {
      ghost var g, k := pixels, rng.used;
      nx, ny := x, y;
      if y >= height - 1 {
        return;
      }
      if CanDisplace(x, y, x, y + 1) {
        Swap(x, y, x, y + 1);
        nx, ny := x, y + 1;
        return;
      }
      var r := rng.Next();
      var dir := if r < 0.5 then -1 else 1;
      var pair := [(x + dir, y + 1), (x - dir, y + 1)];
      FirstMoves(g, x, y, pair, 0, k + 1);
      var moved;
      moved, nx, ny := TryPair(x, y, pair[0], pair[1]);
    }

    /**
     * `updateLiquid(x, y)`: the grid and the draws taken are those of LiquidStep; (nx, ny) is
     * where the record now sits.
     */
    method UpdateLiquid(x: int, y: int, rng: Rng) returns (nx: int, ny: int)
      requires Valid() && InBounds(pixels, x, y)
      modifies this`pixels, rng`used
      ensures Valid()
      ensures var o := LiquidStep(old(pixels), x, y, rng.draws, old(rng.used));
        pixels == o.cells && rng.used == o.used && (nx, ny) == (o.x, o.y)
    {
      ghost var g, k := pixels, rng.used;
      ghost var c := LiquidChoice(g, x, y, rng.draws, k);
      nx, ny := x, y;
      if y >= height - 1 {
        assert c == Choice(Stay, k);
        return;
      }
      if CanDisplace(x, y, x, y + 1) {
        assert c == Choice(MoveTo(x, y + 1), k);
        Swap(x, y, x, y + 1);
        nx, ny := x, y + 1;
        return;
      }
      var r := rng.Next();
      var dir := if r < 0.5 then -1 else 1;
      var below := [(x + dir, y + 1), (x - dir, y + 1)];
      var beside := [(x + dir, y), (x - dir, y)];
      ghost var diagonal := First(g, x, y, below, k + 1);
      FirstMoves(g, x, y, below, 0, k + 1);
      var moved;
      moved, nx, ny := TryPair(x, y, below[0], below[1]);
      if moved {
        assert c == diagonal;
        return;
      }
      var flow := rng.Next();
      if flow < Config.WATER_FLOW_SPEED {
        assert c == First(g, x, y, beside, k + 2);
        FirstMoves(g, x, y, beside, 0, k + 2);
        moved, nx, ny := TryPair(x, y, beside[0], beside[1]);
      } else {
        assert c == Choice(Stay, k + 2);
      }
    }

    /**
     * The gas rule's dissipation: one draw, and under `chance` the cell at (x, y) becomes AIR.
     */
    method Dissipate(x: int, y: int, chance: real, rng: Rng)
      requires Valid() && InBounds(pixels, x, y)
      modifies this`pixels, rng`used
      ensures Valid() && rng.used == old(rng.used) + 1
      ensures rng.draws(old(rng.used)) < chance ==> pixels == Grid.SetPixel(old(pixels), x, y, AIR)
      ensures rng.draws(old(rng.used)) >= chance ==> pixels == old(pixels)
    {
      var r := rng.Next();
      if r < chance {
        SetPixel(x, y, AIR);
      }
    }

    /**
     * `updateGas(x, y)` with the dissipation test reading the gas record's own lifetime: the grid
     * and the draws taken are those of GasStep; (nx, ny) is where the record now sits.
     */
    method UpdateGas(x: int, y: int, rng: Rng) returns (nx: int, ny: int)
      requires Valid() && InBounds(pixels, x, y)
      modifies this`pixels, rng`used
      ensures Valid()
      ensures var o := GasStep(old(pixels), x, y, rng.draws, old(rng.used));
        pixels == o.cells && rng.used == o.used && (nx, ny) == (o.x, o.y)
    {
      ghost var g, k := pixels, rng.used;
      ghost var c := GasChoice(g, x, y, rng.draws, k);
      nx, ny := x, y;
      if y <= 0 {
        assert c == Choice(if rng.draws(k) < 0.1 then Vanish else Stay, k + 1);
        Dissipate(x, y, 0.1, rng);
        return;
      }
      if CanDisplace(x, y, x, y - 1) {
        assert c == Choice(MoveTo(x, y - 1), k);
        Swap(x, y, x, y - 1);
        nx, ny := x, y - 1;
        return;
      }
      var r := rng.Next();
      var dir := if r < 0.5 then -1 else 1;
      var above := [(x + dir, y - 1), (x - dir, y - 1)];
      ghost var diagonal := First(g, x, y, above, k + 1);
      FirstMoves(g, x, y, above, 0, k + 1);
      var moved;
      moved, nx, ny := TryPair(x, y, above[0], above[1]);
      if moved {
        assert c == diagonal;
        return;
      }
      if pixels[y][x].lifetime > 3.0 {
        assert c == Choice(if rng.draws(k + 1) < 0.05 then Vanish else Stay, k + 2);
        Dissipate(x, y, 0.05, rng);
      } else {
        assert c == Choice(Stay, k + 1);
      }
    }

    // ----------------------------------------------------------- reactions

    /**
     * One cell of `createExplosion`: inside the disk, a non-empty cell takes one draw and under 0.7
     * becomes FIRE (inside half the radius) or SMOKE.
     */
    method BlastAt(cx: int, cy: int, radius: int, x: int, y: int, rng: Rng)
      requires Valid()
      modifies this`pixels, rng`used
      ensures Valid()
      ensures var e := BlastCell(old(pixels), cx, cy, radius, x, y, rng.draws, old(rng.used));
        pixels == e.cells && rng.used == e.used
    {
      if Dist2(x - cx, y - cy) <= radius * radius {
        var p := GetPixel(x, y);
        if p.Some? && !Materials.IsEmpty(p.value) {
          var r := rng.Next();
          if r < 0.7 {
            SetPixel(x, y, BlastType(cx, cy, radius, x, y));
          }
        }
      }
    }

    /** Row y of the `createExplosion` scan: the grid and the draws taken are those of BlastRow. */
    method BlastRowAt(cx: int, cy: int, radius: int, y: int, rng: Rng)
      requires Valid()
      modifies this`pixels, rng`used
      ensures Valid()
      ensures var e := BlastRow(old(pixels), cx, cy, radius, y, cx - radius, rng.draws, old(rng.used));
        pixels == e.cells && rng.used == e.used
    {
      ghost var target := BlastRow(pixels, cx, cy, radius, y, cx - radius, rng.draws, rng.used);
      var x := cx - radius;
      while x <= cx + radius
        invariant Valid()
        invariant BlastRow(pixels, cx, cy, radius, y, x, rng.draws, rng.used) == target
        decreases cx + radius + 1 - x
      {
        BlastAt(cx, cy, radius, x, y, rng);
        x := x + 1;
      }
    }

    /**
     * `createExplosion(cx, cy, radius)`: the square around the centre scanned row by row; the grid
     * and the draws taken are those of Explosion, so ExplosionSpec describes what changed.
     */
    method CreateExplosion(cx: int, cy: int, radius: int, rng: Rng)
      requires Valid()
      modifies this`pixels, rng`used
      ensures Valid()
      ensures var e := Explosion(old(pixels), cx, cy, radius, rng.draws, old(rng.used));
        pixels == e.cells && rng.used == e.used
    {
      ghost var target := Explosion(pixels, cx, cy, radius, rng.draws, rng.used);
      var y := cy - radius;
      while y <= cy + radius
        invariant Valid()
        invariant BlastRows(pixels, cx, cy, radius, y, rng.draws, rng.used) == target
        decreases cy + radius + 1 - y
      {
        BlastRowAt(cx, cy, radius, y, rng);
        y := y + 1;
      }
    }

    /**
     * The ignition test of `updateFire` for the neighbour at n: the grid and the draws taken are
     * those of Kindle.
     */
    method KindleAt(n: (int, int), rng: Rng)
      requires Valid() && InBounds(pixels, n.0, n.1)
      modifies this`pixels, rng`used
      ensures Valid()
      ensures var e := Kindle(old(pixels), n, rng.draws, old(rng.used));
        pixels == e.cells && rng.used == e.used
    {
      var nb := pixels[n.1][n.0];
      if MaterialAt(nb).flammable {
        var r := rng.Next();
        if r < Config.FIRE_SPREAD_CHANCE && !IsBurning(nb) {
          pixels := pixels[n.1 := pixels[n.1][n.0 := Ignite(nb)]];
        }
      }
    }

    /**
     * The neighbour loop of `updateFire(x, y)`: the grid, the draws taken and whether it returned
     * early are those of SpreadFire.
     */
    method SpreadFireAt(x: int, y: int, rng: Rng) returns (stopped: bool)
      requires Valid() && InBounds(pixels, x, y)
      modifies this`pixels, rng`used
      ensures Valid()
      ensures var s := SpreadFire(old(pixels), x, y, 0, rng.draws, old(rng.used));
        pixels == s.cells && rng.used == s.used && stopped == s.stopped
    {
      ghost var target := SpreadFire(pixels, x, y, 0, rng.draws, rng.used);
      var neighbors := Neighbors(x, y);
      var m := 0;
      while m < 4
        invariant 0 <= m <= 4 && Valid() && InBounds(pixels, x, y)
        invariant SpreadFire(pixels, x, y, m, rng.draws, rng.used) == target
      {
        var n := neighbors[m];
        var neighbor := GetPixel(n.0, n.1);
        if neighbor.Some? {
          var nb := neighbor.value;
          KindleAt(n, rng);
          if nb.kind == WATER {
            SetPixel(x, y, STEAM);
            var r := rng.Next();
            SetPixel(n.0, n.1, if r < 0.5 then STEAM else AIR);
            return true;
          }
          if MaterialAt(nb).explosive {
            CreateExplosion(n.0, n.1, 8, rng);
            return true;
          }
        }
        m := m + 1;
      }
      return false;
    }

    /**
     * `updateFire(x, y, dt)`, the lifetime already advanced: the grid and the draws taken are
     * those of FireStep; (nx, ny) is where the fire record now sits.
     */
    method UpdateFire(x: int, y: int, rng: Rng) returns (nx: int, ny: int)
      requires Valid() && InBounds(pixels, x, y)
      modifies this`pixels, rng`used
      ensures Valid()
      ensures var o := FireStep(old(pixels), x, y, rng.draws, old(rng.used));
        pixels == o.cells && rng.used == o.used && (nx, ny) == (o.x, o.y)
    {
      nx, ny := x, y;
      if pixels[y][x].lifetime > Config.FIRE_LIFETIME {
        var r := rng.Next();
        SetPixel(x, y, if r < 0.5 then SMOKE else AIR);
        return;
      }
      var stopped := SpreadFireAt(x, y, rng);
      if stopped {
        return;
      }
      if y > 0 {
        var r := rng.Next();
        if r < 0.3 && IsEmpty(x, y - 1) {
          Swap(x, y, x, y - 1);
          nx, ny := x, y - 1;
        }
      }
    }

    /** One neighbour of the loop of `updateElectricity`, as Current states it. */
    method CurrentAt(n: (int, int), rng: Rng)
      requires Valid()
      modifies this`pixels, rng`used
      ensures Valid()
      ensures var e := Current(old(pixels), n, rng.draws, old(rng.used));
        pixels == e.cells && rng.used == e.used
    {
      var neighbor := GetPixel(n.0, n.1);
      if neighbor.Some? && neighbor.value.kind != ELECTRICITY && MaterialAt(neighbor.value).conductive {
        var r := rng.Next();
        if r < 0.5 {
          if IsEmpty(n.0, n.1 - 1) {
            SetPixel(n.0, n.1 - 1, ELECTRICITY);
          } else if IsEmpty(n.0, n.1 + 1) {
            SetPixel(n.0, n.1 + 1, ELECTRICITY);
          }
        }
      }
    }

    /**
     * `updateElectricity(x, y, dt)`, the lifetime already advanced: the grid and the draws taken
     * are those of ElectricityStep, so ElectricityRule describes what changed.
     */
    method UpdateElectricity(x: int, y: int, rng: Rng)
      requires Valid() && InBounds(pixels, x, y)
      modifies this`pixels, rng`used
      ensures Valid()
      ensures var o := ElectricityStep(old(pixels), x, y, rng.draws, old(rng.used));
        pixels == o.cells && rng.used == o.used
    {
      if pixels[y][x].lifetime > 0.2 {
        SetPixel(x, y, AIR);
        return;
      }
      ghost var target := Conduct(pixels, x, y, 0, rng.draws, rng.used);
      var neighbors := Neighbors(x, y);
      var m := 0;
      while m < 4
        invariant 0 <= m <= 4 && Valid()
        invariant Conduct(pixels, x, y, m, rng.draws, rng.used) == target
      {
        CurrentAt(neighbors[m], rng);
        m := m + 1;
      }
    }

    // ----------------------------------------------------------- updatePixel

    /**
     * The burning branch of `updatePixel`: the grid, the draws taken and whether processing ends
     * are those of Burn, so BurnRule describes what changed.
     */
    method BurnAt(x: int, y: int, dt: real, rng: Rng) returns (done: bool)
      requires Valid() && InBounds(pixels, x, y)
      modifies this`pixels, rng`used
      ensures Valid()
      ensures var b := Burn(old(pixels), x, y, dt, rng.draws, old(rng.used));
        pixels == b.cells && rng.used == b.used && done == b.done
    {
      var p := pixels[y][x];
      done := false;
      if !p.data.Burning? {
        return;
      }
      var left := p.data.burnTime - dt;
      pixels := pixels[y := pixels[y][x := p.(data := Burning(left))]];
      if left <= 0.0 {
        SetPixel(x, y, FIRE);
        return true;
      }
      var r := rng.Next();
      if r < 0.2 && y > 0 && IsEmpty(x, y - 1) {
        SetPixel(x, y - 1, FIRE);
      }
    }

    /**
     * The movement rule `updatePixel` picks by the phase of material `mat`: the grid and the draws
     * taken are those of Move; (nx, ny) is where the record now sits.
     */
    method MoveAt(x: int, y: int, mat: Material, rng: Rng) returns (nx: int, ny: int)
      requires Valid() && InBounds(pixels, x, y)
      modifies this`pixels, rng`used
      ensures Valid()
      ensures var o := Move(old(pixels), x, y, mat, rng.draws, old(rng.used));
        pixels == o.cells && rng.used == o.used && (nx, ny) == (o.x, o.y)
    {
      nx, ny := x, y;
      if mat.state == Powder {
        nx, ny := UpdatePowder(x, y, rng);
      } else if mat.state == Liquid {
        nx, ny := UpdateLiquid(x, y, rng);
      } else if mat.state == Gas && !mat.spreads {
        nx, ny := UpdateGas(x, y, rng);
      }
    }

    /**
     * `updatePixel(x, y, dt)`: the grid and the draws taken are those of PixelStep; (nx, ny) is
     * where the processed record now sits.
     */
    method UpdatePixel(x: int, y: int, dt: real, rng: Rng) returns (nx: int, ny: int)
      requires Valid() && InBounds(pixels, x, y)
      modifies this`pixels, rng`used
      ensures Valid()
      ensures var o := PixelStep(old(pixels), x, y, dt, rng.draws, old(rng.used));
        pixels == o.cells && rng.used == o.used && (nx, ny) == (o.x, o.y)
    {
      ghost var g, k := pixels, rng.used;
      var p := pixels[y][x];
      var mat := MaterialAt(p);
      pixels := pixels[y := pixels[y][x := p.(lifetime := p.lifetime + dt)]];
      assert pixels == Age(g, x, y, dt);
      if p.kind == FIRE {
        nx, ny := UpdateFire(x, y, rng);
        return;
      }
      nx, ny := x, y;
      if p.kind == ELECTRICITY {
        UpdateElectricity(x, y, rng);
        return;
      }
      var done := BurnAt(x, y, dt, rng);
      if done {
        return;
      }
      nx, ny := MoveAt(x, y, mat, rng);
    }

    // ----------------------------------------------------------- update

    /** The first loop of `update`: every record's `updated` flag is cleared. */
    method ClearAll()
      requires Valid()
      modifies this`pixels
      ensures Valid() && pixels == ClearFlags(old(pixels))
    {
      var y := 0;
      while y < height
        invariant 0 <= y <= height && Valid()
        invariant forall i, j :: 0 <= i < height && 0 <= j < width ==>
          pixels[i][j] == if i < y then old(pixels)[i][j].(updated := false) else old(pixels)[i][j]
      {
        var x := 0;
        while x < width
          invariant 0 <= x <= width && Valid()
          invariant forall i, j :: 0 <= i < height && 0 <= j < width ==>
            pixels[i][j] == if i < y || (i == y && j < x) then old(pixels)[i][j].(updated := false) else old(pixels)[i][j]
        {
          pixels := pixels[y := pixels[y][x := pixels[y][x].(updated := false)]];
          x := x + 1;
        }
        y := y + 1;
      }
      CellwiseEqual(pixels, ClearFlags(old(pixels)));
    }

    /**
     * One iteration of the scan loop of `update`: skip a flagged or empty record, otherwise run
     * `updatePixel` and flag the record wherever it now sits. The grid and the draws taken are
     * those of Visit.
     */
    method VisitAt(x: int, y: int, dt: real, rng: Rng)
      requires Valid() && InBounds(pixels, x, y)
      modifies this`pixels, rng`used
      ensures Valid()
      ensures var v := Visit(old(pixels), x, y, dt, rng.draws, old(rng.used));
        pixels == v.cells && rng.used == v.used
    {
      var p := pixels[y][x];
      if p.updated || Materials.IsEmpty(p) {
        return;
      }
      var nx, ny := UpdatePixel(x, y, dt, rng);
      pixels := pixels[ny := pixels[ny][nx := pixels[ny][nx].(updated := true)]];
    }

    /**
     * One row of the scan loop of `update`, left to right when `forward`, right to left
     * otherwise: the grid and the draws taken are those of Visits over RowOrder.
     */
    method ScanRow(y: int, forward: bool, dt: real, rng: Rng)
      requires Valid() && 0 <= y < height
      modifies this`pixels, rng`used
      ensures Valid() && Within(old(pixels), RowOrder(width, y, forward))
      ensures var r := Visits(old(pixels), RowOrder(width, y, forward), dt, rng.draws, old(rng.used));
        pixels == r.cells && rng.used == r.used
    {
      var row := RowOrder(width, y, forward);
      RowWithin(pixels, width, y, 0, forward);
      ghost var target := Visits(pixels, row, dt, rng.draws, rng.used);
      var i := 0;
      while i < width
        invariant 0 <= i <= width && Valid()
        invariant Within(pixels, row[i..])
        invariant var r := Visits(pixels, row[i..], dt, rng.draws, rng.used);
          r.cells == target.cells && r.used == target.used
      {
        var x := if forward then i else width - 1 - i;
        assert row[i..][0] == (x, y) && row[i..][1..] == row[i + 1..];
        VisitsStep(pixels, row[i..], dt, rng.draws, rng.used);
        VisitAt(x, y, dt, rng);
        i := i + 1;
        RowWithin(pixels, width, y, i, forward);
      }
    }

    /** One turn of the scan loop: scanning row y - 1 leaves rows y - 2 .. 0 of the scan to do. */
    method ScanNextRow(y: int, forward: bool, dt: real, rng: Rng, ghost target: Cells, ghost last: nat) returns (next: int)
      requires Valid() && 0 < y <= height
      requires Scanned(pixels, target, width, y, forward, dt, rng.draws, rng.used, last)
      modifies this`pixels, rng`used
      ensures next == y - 1 && Valid() && Scanned(pixels, target, width, next, forward, dt, rng.draws, rng.used, last)
    {
      ghost var g, k := pixels, rng.used;
      ScanRow(y - 1, forward, dt, rng);
      ScannedStep(g, target, width, y, forward, dt, rng.draws, k, last, pixels, rng.used);
      next := y - 1;
    }

    /**
     * The scan loop of `update`: rows from the bottom up, each in the given direction; the grid
     * and the draws taken are those ScanRows computes.
     */
    method Scan(forward: bool, dt: real, rng: Rng)
      requires Valid()
      modifies this`pixels, rng`used
      ensures Valid()
      ensures Scanned(old(pixels), pixels, width, height, forward, dt, rng.draws, old(rng.used), rng.used)
    {
      ghost var r := ScanRows(pixels, width, height, forward, dt, rng.draws, rng.used);
      ghost var target, last := r.cells, r.used;
      var y := height;
      while y > 0
        invariant 0 <= y <= height && Valid()
        invariant Scanned(pixels, target, width, y, forward, dt, rng.draws, rng.used, last)
      {
        y := ScanNextRow(y, forward, dt, rng, target, last);
      }
    }

    /**
     * `update(dt)`: the frame counter advances, and the grid and the draws taken are those of
     * Frame for the new count, so (FrameCensus) every record is processed at most once per frame.
     */
    method Update(dt: real, rng: Rng)
      requires Valid()
      modifies this`pixels, this`frameCount, rng`used
      ensures Valid() && frameCount == old(frameCount) + 1
      ensures var r := Frame(old(pixels), width, old(frameCount) + 1, dt, rng.draws, old(rng.used));
        pixels == r.cells && rng.used == r.used
    {
      frameCount := frameCount + 1;
      ClearAll();
      ghost var c, k := pixels, rng.used;
      Scan(frameCount % 2 == 0, dt, rng);
    }
  }
}
