/**
 * Biomes (src/biomes.js): five bands of the world by depth, and the backwards search that maps a
 * depth to the band it lies in. Everything here is a value; nothing changes state.
 */
module Biomes {
  import opened Common
  import Config

  datatype Biome = Biome(kind: string, name: string, depth: real, backgroundColor: string, enemySpawnRate: real)

  /** `new Biome(config)`: the spawn rate falls back to 1.0 when it is absent or 0. */
  function NewBiome(kind: string, name: string, depth: real, backgroundColor: string, spawnRate: Option<real>): (b: Biome)
    ensures b.kind == kind && b.name == name && b.depth == depth && b.backgroundColor == backgroundColor
    ensures b.enemySpawnRate != 0.0
    ensures spawnRate.None? || spawnRate.value == 0.0 ==> b.enemySpawnRate == 1.0
    ensures spawnRate.Some? && spawnRate.value != 0.0 ==> b.enemySpawnRate == spawnRate.value
  {
    Biome(kind, name, depth, backgroundColor, OrReal(spawnRate, 1.0))
  }

  const COAL_MINES: Biome := NewBiome("coal_mines", "Coal Mines", 0.0, "rgb(20, 15, 10)", Some(0.8))
  const LAVA_FORGE: Biome := NewBiome("lava_forge", "Lava Forge", 200.0, "rgb(30, 10, 5)", Some(1.2))
  const ICE_CAVES: Biome := NewBiome("ice_caves", "Ice Caves", 400.0, "rgb(10, 15, 25)", Some(1.0))
  const ACID_LABS: Biome := NewBiome("acid_labs", "Acid Laboratory", 600.0, "rgb(15, 25, 10)", Some(1.5))
  const DEEP_VOID: Biome := NewBiome("deep_void", "The Deep Void", 800.0, "rgb(5, 5, 15)", Some(2.0))

  /** `Object.values(BIOME_TYPES)`, the list a `BiomeGenerator` searches, in declaration order. */
  const BIOMES: seq<Biome> := [COAL_MINES, LAVA_FORGE, ICE_CAVES, ACID_LABS, DEEP_VOID]

  /** The thresholds strictly ascend along a list. */
  predicate Ascending(bs: seq<Biome>) {
    forall i, j :: 0 <= i < j < |bs| ==> bs[i].depth < bs[j].depth
  }

  /**
   * The search loop of `getCurrentBiome` over indices i - 1 down to 0: the first index whose
   * threshold the depth has reached, or 0 when there is none.
   */
  function Search(bs: seq<Biome>, depth: real, i: nat): (j: nat)
    requires 0 < |bs| && i <= |bs|
    ensures j < |bs| && (j < i || j == 0)
    decreases i
  {
    if i == 0 then 0
    else if depth >= bs[i - 1].depth then i - 1
    else Search(bs, depth, i - 1)
  }

  /** Where the search lands: the greatest reached index below i, or 0 when no threshold is reached. */
  lemma {:induction false} SearchFindsLast(bs: seq<Biome>, depth: real, i: nat)
    requires 0 < |bs| && i <= |bs|
    ensures var j := Search(bs, depth, i);
      (forall k :: j < k < i ==> depth < bs[k].depth) &&
      ((j < i && depth >= bs[j].depth) || (j == 0 && forall k :: 0 <= k < i ==> depth < bs[k].depth))
    decreases i
  {
    if i > 0 && depth < bs[i - 1].depth {
      SearchFindsLast(bs, depth, i - 1);
    }
  }

  /** The index of `getCurrentBiome(depth)` in BIOMES. */
  function BandIndex(depth: real): (j: nat)
    ensures j < |BIOMES|
  {
    Search(BIOMES, depth, |BIOMES|)
  }

  /** `BiomeGenerator.getCurrentBiome(depth)`: always one of the five biomes. */
  function GetCurrentBiome(depth: real): (b: Biome)
    ensures b in BIOMES
  {
    BIOMES[BandIndex(depth)]
  }

  /** `BiomeGenerator.getBiome(x, y)`: the band of depth y * PIXEL_SIZE; x plays no part. */
  function GetBiome(x: real, y: real): (b: Biome)
    ensures b in BIOMES
  {
    GetCurrentBiome(y * Config.PIXEL_SIZE as real)
  }

  lemma BiomesAscend()
    ensures |BIOMES| == 5 && Ascending(BIOMES)
    ensures BIOMES[0].depth == 0.0 && BIOMES[1].depth == 200.0 && BIOMES[2].depth == 400.0
    ensures BIOMES[3].depth == 600.0 && BIOMES[4].depth == 800.0
  {
  }

  /**
   * `getCurrentBiome(depth)` is the biome with the greatest threshold at or below the depth; a
   * depth below every threshold (below 0) gives the first biome, COAL_MINES.
   */
  lemma CurrentBiomeIsDeepestReached(depth: real)
    ensures var b := GetCurrentBiome(depth);
      (depth >= 0.0 ==> b.depth <= depth && forall c :: c in BIOMES && c.depth <= depth ==> c.depth <= b.depth) &&
      (depth < 0.0 ==> b == COAL_MINES)
  {
    BiomesAscend();
    SearchFindsLast(BIOMES, depth, |BIOMES|);
  }

  /** A greater depth never gives an earlier biome of the list. */
  lemma BandMonotone(d1: real, d2: real)
    requires d1 <= d2
    ensures BandIndex(d1) <= BandIndex(d2)
  {
    SearchFindsLast(BIOMES, d1, |BIOMES|);
    SearchFindsLast(BIOMES, d2, |BIOMES|);
    BiomesAscend();
  }

  /** The terrain generator's call `getBiome(x, 0)` always answers COAL_MINES. */
  lemma SurfaceIsCoalMines(x: real)
    ensures GetBiome(x, 0.0) == COAL_MINES
  {
    CurrentBiomeIsDeepestReached(0.0);
    BiomesAscend();
  }

  /** `getBiome(x, y)` depends on y only. */
  lemma BiomeIgnoresColumn(x1: real, x2: real, y: real)
    ensures GetBiome(x1, y) == GetBiome(x2, y) == GetCurrentBiome(2.0 * y)
  {
  }

  /** Every biome of the list keeps its declared, non-zero spawn rate. */
  lemma SpawnRates()
    ensures forall b :: b in BIOMES ==> b.enemySpawnRate > 0.0
    ensures COAL_MINES.enemySpawnRate == 0.8 && DEEP_VOID.enemySpawnRate == 2.0
  {
  }
}
