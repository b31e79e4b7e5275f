/**
 * The older single-file prototype of the game: the table of the 118 elements, the seeded
 * permutation of its Perlin noise, the terrain generator's tile cache, and the colours of a
 * tile's border (the group's glow, brightened for gases and dimmed for liquids).
 * The noise itself (hash, interpolation, octaves) is not modelled: a tile's height is a parameter.
 */
module Prototype {
  import opened Common

  // ------------------------------------------------------------- elements

  datatype Group = Alkali | Alkaline | Transition | Metal | Semimetal | Nonmetal | Halogen | NobleGas | Actinide | Lanthanide
  datatype State = Solid | Liquid | Gas

  /** One entry of `PERIODIC_ELEMENTS`. */
  datatype Element = Element(symbol: string, name: string, color: string, group: Group, state: State)

  /** The group's name as the table spells it. */
  function GroupName(g: Group): string {
    match g
    case Alkali => "alkali"
    case Alkaline => "alkaline"
    case Transition => "transition"
    case Metal => "metal"
    case Semimetal => "semimetal"
    case Nonmetal => "nonmetal"
    case Halogen => "halogen"
    case NobleGas => "noble_gas"
    case Actinide => "actinide"
    case Lanthanide => "lanthanide"
  }

  /** `PERIODIC_ELEMENTS`, in order of atomic number. */
  const ELEMENTS: seq<Element> := [
    Element("H", "Hydrogen", "rgb(255, 200, 100)", Nonmetal, Gas),
    Element("He", "Helium", "rgb(200, 255, 200)", NobleGas, Gas),
    Element("Li", "Lithium", "rgb(255, 100, 100)", Alkali, Solid),
    Element("Be", "Beryllium", "rgb(255, 150, 150)", Alkaline, Solid),
    Element("B", "Boron", "rgb(200, 200, 100)", Semimetal, Solid),
    Element("C", "Carbon", "rgb(100, 100, 100)", Nonmetal, Solid),
    Element("N", "Nitrogen", "rgb(150, 255, 150)", Nonmetal, Gas),
    Element("O", "Oxygen", "rgb(100, 200, 255)", Nonmetal, Gas),
    Element("F", "Fluorine", "rgb(255, 255, 100)", Halogen, Gas),
    Element("Ne", "Neon", "rgb(255, 100, 255)", NobleGas, Gas),
    Element("Na", "Sodium", "rgb(255, 150, 100)", Alkali, Solid),
    Element("Mg", "Magnesium", "rgb(200, 255, 150)", Alkaline, Solid),
    Element("Al", "Aluminum", "rgb(200, 200, 200)", Metal, Solid),
    Element("Si", "Silicon", "rgb(150, 150, 200)", Semimetal, Solid),
    Element("P", "Phosphorus", "rgb(255, 200, 100)", Nonmetal, Solid),
    Element("S", "Sulfur", "rgb(255, 255, 100)", Nonmetal, Solid),
    Element("Cl", "Chlorine", "rgb(100, 255, 100)", Halogen, Gas),
    Element("Ar", "Argon", "rgb(200, 100, 255)", NobleGas, Gas),
    Element("K", "Potassium", "rgb(255, 150, 100)", Alkali, Solid),
    Element("Ca", "Calcium", "rgb(220, 220, 100)", Alkaline, Solid),
    Element("Sc", "Scandium", "rgb(200, 150, 200)", Transition, Solid),
    Element("Ti", "Titanium", "rgb(180, 150, 180)", Transition, Solid),
    Element("V", "Vanadium", "rgb(170, 140, 170)", Transition, Solid),
    Element("Cr", "Chromium", "rgb(160, 130, 160)", Transition, Solid),
    Element("Mn", "Manganese", "rgb(150, 120, 150)", Transition, Solid),
    Element("Fe", "Iron", "rgb(200, 100, 100)", Transition, Solid),
    Element("Co", "Cobalt", "rgb(200, 100, 150)", Transition, Solid),
    Element("Ni", "Nickel", "rgb(200, 150, 100)", Transition, Solid),
    Element("Cu", "Copper", "rgb(255, 150, 50)", Transition, Solid),
    Element("Zn", "Zinc", "rgb(200, 200, 220)", Transition, Solid),
    Element("Ga", "Gallium", "rgb(200, 180, 200)", Metal, Solid),
    Element("Ge", "Germanium", "rgb(180, 160, 180)", Semimetal, Solid),
    Element("As", "Arsenic", "rgb(160, 140, 160)", Semimetal, Solid),
    Element("Se", "Selenium", "rgb(255, 180, 100)", Nonmetal, Solid),
    Element("Br", "Bromine", "rgb(255, 100, 100)", Halogen, Liquid),
    Element("Kr", "Krypton", "rgb(180, 100, 255)", NobleGas, Gas),
    Element("Rb", "Rubidium", "rgb(255, 120, 100)", Alkali, Solid),
    Element("Sr", "Strontium", "rgb(220, 200, 100)", Alkaline, Solid),
    Element("Y", "Yttrium", "rgb(200, 150, 200)", Transition, Solid),
    Element("Zr", "Zirconium", "rgb(180, 150, 180)", Transition, Solid),
    Element("Nb", "Niobium", "rgb(170, 140, 170)", Transition, Solid),
    Element("Mo", "Molybdenum", "rgb(160, 130, 160)", Transition, Solid),
    Element("Tc", "Technetium", "rgb(150, 120, 150)", Transition, Solid),
    Element("Ru", "Ruthenium", "rgb(200, 150, 150)", Transition, Solid),
    Element("Rh", "Rhodium", "rgb(200, 150, 200)", Transition, Solid),
    Element("Pd", "Palladium", "rgb(220, 220, 220)", Transition, Solid),
    Element("Ag", "Silver", "rgb(220, 220, 220)", Transition, Solid),
    Element("Cd", "Cadmium", "rgb(200, 200, 200)", Transition, Solid),
    Element("In", "Indium", "rgb(200, 180, 200)", Metal, Solid),
    Element("Sn", "Tin", "rgb(180, 160, 180)", Metal, Solid),
    Element("Sb", "Antimony", "rgb(160, 140, 160)", Semimetal, Solid),
    Element("Te", "Tellurium", "rgb(255, 180, 100)", Semimetal, Solid),
    Element("I", "Iodine", "rgb(100, 50, 200)", Halogen, Solid),
    Element("Xe", "Xenon", "rgb(160, 80, 255)", NobleGas, Gas),
    Element("Cs", "Cesium", "rgb(255, 120, 100)", Alkali, Solid),
    Element("Ba", "Barium", "rgb(220, 200, 100)", Alkaline, Solid),
    Element("La", "Lanthanum", "rgb(200, 150, 100)", Lanthanide, Solid),
    Element("Ce", "Cerium", "rgb(200, 150, 100)", Lanthanide, Solid),
    Element("Pr", "Praseodymium", "rgb(200, 150, 100)", Lanthanide, Solid),
    Element("Nd", "Neodymium", "rgb(200, 150, 100)", Lanthanide, Solid),
    Element("Pm", "Promethium", "rgb(200, 150, 100)", Lanthanide, Solid),
    Element("Sm", "Samarium", "rgb(200, 150, 100)", Lanthanide, Solid),
    Element("Eu", "Europium", "rgb(200, 150, 100)", Lanthanide, Solid),
    Element("Gd", "Gadolinium", "rgb(200, 150, 100)", Lanthanide, Solid),
    Element("Tb", "Terbium", "rgb(200, 150, 100)", Lanthanide, Solid),
    Element("Dy", "Dysprosium", "rgb(200, 150, 100)", Lanthanide, Solid),
    Element("Ho", "Holmium", "rgb(200, 150, 100)", Lanthanide, Solid),
    Element("Er", "Erbium", "rgb(200, 150, 100)", Lanthanide, Solid),
    Element("Tm", "Thulium", "rgb(200, 150, 100)", Lanthanide, Solid),
    Element("Yb", "Ytterbium", "rgb(200, 150, 100)", Lanthanide, Solid),
    Element("Lu", "Lutetium", "rgb(200, 150, 100)", Lanthanide, Solid),
    Element("Hf", "Hafnium", "rgb(180, 150, 180)", Transition, Solid),
    Element("Ta", "Tantalum", "rgb(170, 140, 170)", Transition, Solid),
    Element("W", "Tungsten", "rgb(160, 130, 160)", Transition, Solid),
    Element("Re", "Rhenium", "rgb(150, 120, 150)", Transition, Solid),
    Element("Os", "Osmium", "rgb(200, 150, 150)", Transition, Solid),
    Element("Ir", "Iridium", "rgb(200, 150, 200)", Transition, Solid),
    Element("Pt", "Platinum", "rgb(220, 220, 220)", Transition, Solid),
    Element("Au", "Gold", "rgb(255, 200, 0)", Transition, Solid),
    Element("Hg", "Mercury", "rgb(150, 150, 200)", Transition, Liquid),
    Element("Tl", "Thallium", "rgb(200, 180, 200)", Metal, Solid),
    Element("Pb", "Lead", "rgb(100, 100, 150)", Metal, Solid),
    Element("Bi", "Bismuth", "rgb(200, 150, 255)", Metal, Solid),
    Element("Po", "Polonium", "rgb(200, 150, 100)", Semimetal, Solid),
    Element("At", "Astatine", "rgb(200, 100, 100)", Halogen, Solid),
    Element("Rn", "Radon", "rgb(140, 60, 255)", NobleGas, Gas),
    Element("Fr", "Francium", "rgb(255, 100, 100)", Alkali, Solid),
    Element("Ra", "Radium", "rgb(220, 180, 100)", Alkaline, Solid),
    Element("Ac", "Actinium", "rgb(200, 150, 100)", Actinide, Solid),
    Element("Th", "Thorium", "rgb(200, 150, 100)", Actinide, Solid),
    Element("Pa", "Protactinium", "rgb(200, 150, 100)", Actinide, Solid),
    Element("U", "Uranium", "rgb(150, 200, 50)", Actinide, Solid),
    Element("Np", "Neptunium", "rgb(200, 150, 100)", Actinide, Solid),
    Element("Pu", "Plutonium", "rgb(200, 150, 100)", Actinide, Solid),
    Element("Am", "Americium", "rgb(200, 150, 100)", Actinide, Solid),
    Element("Cm", "Curium", "rgb(200, 150, 100)", Actinide, Solid),
    Element("Bk", "Berkelium", "rgb(200, 150, 100)", Actinide, Solid),
    Element("Cf", "Californium", "rgb(200, 150, 100)", Actinide, Solid),
    Element("Es", "Einsteinium", "rgb(200, 150, 100)", Actinide, Solid),
    Element("Fm", "Fermium", "rgb(200, 150, 100)", Actinide, Solid),
    Element("Md", "Mendelevium", "rgb(200, 150, 100)", Actinide, Solid),
    Element("No", "Nobelium", "rgb(200, 150, 100)", Actinide, Solid),
    Element("Lr", "Lawrencium", "rgb(200, 150, 100)", Actinide, Solid),
    Element("Rf", "Rutherfordium", "rgb(180, 150, 180)", Transition, Solid),
    Element("Db", "Dubnium", "rgb(170, 140, 170)", Transition, Solid),
    Element("Sg", "Seaborgium", "rgb(160, 130, 160)", Transition, Solid),
    Element("Bh", "Bohrium", "rgb(150, 120, 150)", Transition, Solid),
    Element("Hs", "Hassium", "rgb(200, 150, 150)", Transition, Solid),
    Element("Mt", "Meitnerium", "rgb(200, 150, 200)", Transition, Solid),
    Element("Ds", "Darmstadtium", "rgb(220, 220, 220)", Transition, Solid),
    Element("Rg", "Roentgenium", "rgb(220, 220, 220)", Transition, Solid),
    Element("Cn", "Copernicium", "rgb(200, 200, 200)", Transition, Solid),
    Element("Nh", "Nihonium", "rgb(200, 180, 200)", Metal, Solid),
    Element("Fl", "Flerovium", "rgb(180, 160, 180)", Metal, Solid),
    Element("Mc", "Moscovium", "rgb(160, 140, 160)", Metal, Solid),
    Element("Lv", "Livermorium", "rgb(200, 150, 100)", Metal, Solid),
    Element("Ts", "Tennessine", "rgb(200, 100, 100)", Halogen, Solid),
    Element("Og", "Oganesson", "rgb(120, 40, 255)", NobleGas, Gas)
  ]

  /** `PERIODIC_ELEMENTS.length`. */
  const ELEMENT_COUNT: nat := 118

  lemma ElementCount()
    ensures |ELEMENTS| == ELEMENT_COUNT
  {
  }

  // ------------------------------------------------------------- the seeded permutation

  /** The modulus of the seed's linear congruence. */
  const MODULUS: nat := 233280

  /** `seed = (seed * 9301 + 49297) % 233280`, on a non-negative integer seed. */
  function NextSeed(seed: nat): (r: nat)
    ensures r < MODULUS
  {
    (seed * 9301 + 49297) % MODULUS
  }

  /** `Math.floor((seed / 233280) * (i + 1))` for a seed below the modulus, in exact arithmetic. */
  function SwapIndex(seed: nat, i: nat): (j: nat)
    requires seed < MODULUS
    ensures j <= i
  {
    ScaledIndex(seed as real / MODULUS as real, i + 1)
  }

  /** The swap index is the integer quotient seed * (i + 1) / 233280. */
  lemma SwapIndexExact(seed: nat, i: nat)
    requires seed < MODULUS
    ensures SwapIndex(seed, i) == seed * (i + 1) / MODULUS
  {
    var n := seed * (i + 1);
    var q, rem := n / MODULUS, n % MODULUS;
    assert n == q * MODULUS + rem;
    assert (seed as real / MODULUS as real) * (i + 1) as real == n as real / MODULUS as real;
    assert n as real / MODULUS as real == q as real + rem as real / MODULUS as real;
  }

  /** `[p[i], p[j]] = [p[j], p[i]]` on a sequence. */
  function Swap(xs: seq<int>, i: nat, j: nat): (r: seq<int>)
    requires i < |xs| && j < |xs|
    ensures |r| == |xs| && r[i] == xs[j] && r[j] == xs[i]
    ensures forall k :: 0 <= k < |xs| && k != i && k != j ==> r[k] == xs[k]
    ensures multiset(r) == multiset(xs)
  {
    xs[i := xs[j]][j := xs[i]]
  }

  /**
   * The Fisher–Yates loop of `generatePermutation` from index i down to 1, where `seed` is the
   * seed before step i: each step advances the seed and swaps p[i] with p[SwapIndex].
   */
  function Shuffle(xs: seq<int>, seed: nat, i: nat): (r: seq<int>)
    requires i < |xs|
    ensures |r| == |xs| && multiset(r) == multiset(xs)
    decreases i
  {
    if i == 0 then xs
    else
      var s := NextSeed(seed);
      Shuffle(Swap(xs, i, SwapIndex(s, i)), s, i - 1)
  }

  /** 0, 1, ..., n - 1. */
  function Identity(n: nat): (r: seq<int>)
    ensures |r| == n && forall k :: 0 <= k < n ==> r[k] == k
  {
    seq(n, k => k)
  }

  /** The first half of `generatePermutation(seed)`: 0..255 shuffled. */
  function Permutation(seed: nat): (p: seq<int>)
    ensures |p| == 256 && multiset(p) == multiset(Identity(256))
  {
    Shuffle(Identity(256), seed, 255)
  }

  /** Each of 0..n-1 occurs once in Identity(n), and nothing else occurs. */
  lemma {:induction false} IdentityCount(n: nat, v: int)
    ensures multiset(Identity(n))[v] == if 0 <= v < n then 1 else 0
  {
    if n > 0 {
      assert Identity(n) == Identity(n - 1) + [n - 1];
      IdentityCount(n - 1, v);
    }
  }

  /** A value at two indices is counted at least twice. */
  lemma Repeated(p: seq<int>, a: nat, b: nat)
    requires a < b < |p| && p[a] == p[b]
    ensures multiset(p)[p[a]] >= 2
  {
    assert p == p[..b] + [p[b]] + p[b + 1..];
    assert p[a] in multiset(p[..b]);
  }

  /** The permutation holds each of 0..255 exactly once. */
  lemma PermutationDistinct(seed: nat)
    ensures var p := Permutation(seed);
      (forall k :: 0 <= k < 256 ==> 0 <= p[k] < 256) &&
      (forall v :: 0 <= v < 256 ==> v in p) &&
      (forall a, b :: 0 <= a < b < 256 ==> p[a] != p[b])
  {
    var p := Permutation(seed);
    forall k | 0 <= k < 256
      ensures 0 <= p[k] < 256
    {
      assert p[k] in multiset(p);
      IdentityCount(256, p[k]);
    }
    forall v | 0 <= v < 256
      ensures v in p
    {
      IdentityCount(256, v);
      assert v in multiset(p);
    }
    forall a, b | 0 <= a < b < 256
      ensures p[a] != p[b]
    {
      if p[a] == p[b] {
        Repeated(p, a, b);
        IdentityCount(256, p[a]);
      }
    }
  }

  /**
   * The table `generatePermutation` returns has 512 entries, each in 0..255; entry k + 256
   * repeats entry k, and the first 256 hold each of 0..255 once.
   */
  lemma PermutationTable(seed: nat)
    ensures var p := Permutation(seed) + Permutation(seed);
      |p| == 512 &&
      (forall k :: 0 <= k < 256 ==> p[k] == p[k + 256]) &&
      (forall k :: 0 <= k < 512 ==> 0 <= p[k] < 256) &&
      (forall a, b :: 0 <= a < b < 256 ==> p[a] != p[b])
  {
    PermutationDistinct(seed);
  }

  /** `generatePermutation(seed)`: 0..255 shuffled, then concatenated with itself for wrapping. */
  method GeneratePermutation(seed: nat) returns (p: seq<int>)
    ensures p == Permutation(seed) + Permutation(seed)
  {
    var a := new int[256];
    for k := 0 to 256
      invariant forall m :: 0 <= m < k ==> a[m] == m
    {
      a[k] := k;
    }
    assert a[..] == Identity(256);
    ghost var target := Permutation(seed);
    var s := seed;
    var i := 255;
    while i > 0
      invariant 0 <= i <= 255
      invariant Shuffle(a[..], s, i) == target
    {
      s, i := SwapStep(a, s, i);
    }
    p := a[..] + a[..];
  }

  /** One step of the Fisher–Yates loop: advance the seed, then swap a[i] with a[SwapIndex]. */
  method SwapStep(a: array<int>, seed: nat, i: nat) returns (seed': nat, i': nat)
    requires 0 < i < a.Length
    modifies a
    ensures seed' == NextSeed(seed) && i' == i - 1
    ensures a[..] == Swap(old(a[..]), i, SwapIndex(seed', i))
    ensures Shuffle(a[..], seed', i') == Shuffle(old(a[..]), seed, i)
  {
    seed' := NextSeed(seed);
    var j := SwapIndex(seed', i);
    ghost var before := a[..];
    a[i], a[j] := a[j], a[i];
    assert a[..] == Swap(before, i, j);
    i' := i - 1;
    ShuffleStep(before, seed, i);
    assert Shuffle(before, seed, i) == Shuffle(a[..], seed', i - 1);
  }

  /** The first step of a shuffle from index i > 0. */
  lemma ShuffleStep(xs: seq<int>, seed: nat, i: nat)
    requires 0 < i < |xs|
    ensures var s := NextSeed(seed);
      Shuffle(xs, seed, i) == Shuffle(Swap(xs, i, SwapIndex(s, i)), s, i - 1)
  {
  }

  /** `PerlinNoise`: its seed and its doubled permutation; the noise it computes is not modelled. */
  class PerlinNoise {
    const seed: nat
    const permutation: seq<int>

    constructor(seed: nat := 0)
      ensures this.seed == seed && permutation == Permutation(seed) + Permutation(seed)
    {
      this.seed := seed;
      var p := GeneratePermutation(seed);
      permutation := p;
    }
  }

  // ------------------------------------------------------------- tiles

  function Abs(x: real): real {
    if x < 0.0 then -x else x
  }

  /**
   * `Math.floor(Math.abs(height * 100) % PERIODIC_ELEMENTS.length)`, with JavaScript's `%` on a
   * non-negative real: an index into the table, the floor of the scaled height modulo 118.
   */
  function ElementIndex(height: real): (i: int)
    ensures 0 <= i < ELEMENT_COUNT
    ensures i == Abs(height * 100.0).Floor % ELEMENT_COUNT
  {
    var a := Abs(height * 100.0);
    FloorMod(a);
    (a - (a / 118.0).Floor as real * 118.0).Floor
  }

  /** JavaScript's `%` by 118 on a non-negative real, floored, is the floor modulo 118. */
  lemma FloorMod(a: real)
    requires a >= 0.0
    ensures var i := (a - (a / 118.0).Floor as real * 118.0).Floor; 0 <= i < 118 && i == a.Floor % 118
  {
    var q := (a / 118.0).Floor;
    assert q as real <= a / 118.0 < q as real + 1.0;
    assert q as real * 118.0 <= a < q as real * 118.0 + 118.0;
    var f := a.Floor;
    assert q * 118 <= f < q * 118 + 118;
    var b := a - q as real * 118.0;
    assert (f - q * 118) as real <= b < (f - q * 118) as real + 1.0;
    assert b.Floor == f - q * 118;
  }

  /** The cache key of `getTile`: the floored coordinates (the text "x,y" of one pair). */
  function Key(x: real, y: real): (int, int) {
    (x.Floor, y.Floor)
  }

  /**
   * `getTile(x, y)` on the cache, for the noise height at (x, y): the element cached under the
   * key, or else the element the height indexes, which is then cached.
   */
  function Lookup(cache: map<(int, int), Element>, x: real, y: real, height: real): (r: (Element, map<(int, int), Element>))
    ensures Key(x, y) in r.1 && r.1[Key(x, y)] == r.0 && r.1.Keys == cache.Keys + {Key(x, y)}
    ensures forall k :: k in cache ==> r.1[k] == cache[k]
    ensures Key(x, y) !in cache ==> r.0 == ELEMENTS[ElementIndex(height)]
  {
    var key := Key(x, y);
    if key in cache then (cache[key], cache)
    else
      var e := ELEMENTS[ElementIndex(height)];
      (e, cache[key := e])
  }

  /**
   * Once a tile is looked up, any later lookup of a point with the same floored coordinates,
   * whatever its height, returns the same element and leaves the cache as it is.
   */
  lemma Memoized(cache: map<(int, int), Element>, x: real, y: real, h: real, x': real, y': real, h': real)
    requires x.Floor == x'.Floor && y.Floor == y'.Floor
    ensures var first := Lookup(cache, x, y, h);
      Lookup(first.1, x', y', h') == first
  {
  }

  /** A cache filled by lookups only holds elements of the table. */
  lemma LookupFromTable(cache: map<(int, int), Element>, x: real, y: real, h: real)
    requires forall k :: k in cache ==> cache[k] in ELEMENTS
    ensures var r := Lookup(cache, x, y, h); r.0 in ELEMENTS && forall k :: k in r.1 ==> r.1[k] in ELEMENTS
  {
  }

  /** `TerrainGenerator`: its noise and its cache of tiles. */
  class TerrainGenerator {
    const seed: nat
    const noise: PerlinNoise
    var cache: map<(int, int), Element>

    constructor(seed: nat := 0)
      ensures this.seed == seed && noise.seed == seed && cache == map[]
    {
      this.seed := seed;
      noise := new PerlinNoise(seed);
      cache := map[];
    }

    /** `getTile(x, y)`, for the noise height at (x, y). */
    method GetTile(x: real, y: real, height: real) returns (e: Element)
      modifies this`cache
      ensures (e, cache) == Lookup(old(cache), x, y, height)
    {
      var key := Key(x, y);
      if key in cache {
        return cache[key];
      }
      e := ELEMENTS[ElementIndex(height)];
      cache := cache[key := e];
    }
  }

  // ------------------------------------------------------------- colour text

  predicate IsDigit(c: char) {
    '0' <= c <= '9'
  }

  predicate AllDigits(s: string) {
    forall k :: 0 <= k < |s| ==> IsDigit(s[k])
  }

  /** The longest prefix of s made of digits. */
  function LeadingDigits(s: string): (d: string)
    ensures |d| <= |s| && d == s[..|d|] && AllDigits(d)
    ensures |d| < |s| ==> !IsDigit(s[|d|])
  {
    if s != [] && IsDigit(s[0]) then [s[0]] + LeadingDigits(s[1..]) else []
  }

  /** `s.match(/\d+/g)`: the maximal runs of digits of s, in order (JavaScript gives null for none). */
  function DigitRuns(s: string): (runs: seq<string>)
    ensures forall k :: 0 <= k < |runs| ==> runs[k] != [] && AllDigits(runs[k])
    decreases |s|
  {
    if s == [] then []
    else
      var d := LeadingDigits(s);
      if d == [] then DigitRuns(s[1..]) else [d] + DigitRuns(s[|d|..])
  }

  /** The number a run of digits denotes, as `Number(run)`. */
  function Value(d: string): nat
    requires AllDigits(d)
  {
    if d == [] then 0 else 10 * Value(d[..|d| - 1]) + (d[|d| - 1] as int - '0' as int)
  }

  /** The numbers a text's digit runs denote. */
  function Numbers(s: string): seq<nat> {
    var runs := DigitRuns(s);
    seq(|runs|, k requires 0 <= k < |runs| => Value(runs[k]))
  }

  /** The decimal text of a natural number. */
  function NatText(n: nat): (s: string)
    ensures s != [] && AllDigits(s)
  {
    if n < 10 then ['0' + n as char] else NatText(n / 10) + ['0' + (n % 10) as char]
  }

  /** The decimal text of an integer, as a template literal shows it. */
  function IntText(i: int): string {
    if i < 0 then "-" + NatText(-i) else NatText(i)
  }

  /** A channel of a rebuilt colour: a number, or NaN where the colour had no such run. */
  function ChannelText(c: Option<int>): string {
    match c
    case None => "NaN"
    case Some(v) => IntText(v)
  }

  /** The template `rgb(${r}, ${g}, ${b})`. */
  function Render(r: Option<int>, g: Option<int>, b: Option<int>): string {
    "rgb(" + (ChannelText(r) + (", " + (ChannelText(g) + (", " + (ChannelText(b) + ")")))))
  }

  function RgbText(r: int, g: int, b: int): string {
    Render(Some(r), Some(g), Some(b))
  }

  /** A number's text reads back as the number. */
  lemma {:induction false} ValueOfText(n: nat)
    ensures Value(NatText(n)) == n
  {
    if n >= 10 {
      var s := NatText(n);
      assert s[..|s| - 1] == NatText(n / 10);
      ValueOfText(n / 10);
    }
  }

  /** Characters that are not digits add no run. */
  lemma {:induction false} RunsAfterNonDigits(p: string, t: string)
    requires forall k :: 0 <= k < |p| ==> !IsDigit(p[k])
    ensures DigitRuns(p + t) == DigitRuns(t)
  {
    if p != [] {
      var s := p + t;
      assert s[0] == p[0] && LeadingDigits(s) == [];
      assert DigitRuns(s) == DigitRuns(s[1..]);
      assert s[1..] == p[1..] + t;
      RunsAfterNonDigits(p[1..], t);
    } else {
      assert p + t == t;
    }
  }

  /** A run of digits followed by a non-digit (or the end) is one run. */
  lemma RunsAfterDigits(n: string, t: string)
    requires n != [] && AllDigits(n)
    requires t == [] || !IsDigit(t[0])
    ensures DigitRuns(n + t) == [n] + DigitRuns(t)
  {
    assert LeadingDigits(n + t) == n;
    assert (n + t)[|n|..] == t;
  }

  /** The run a channel's text contributes: its number, or none for NaN. */
  function Shown(c: Option<int>): seq<string>
    requires c.Some? ==> c.value >= 0
  {
    if c.Some? then [NatText(c.value)] else []
  }

  lemma ChannelRuns(c: Option<int>, t: string)
    requires c.Some? ==> c.value >= 0
    requires t == [] || !IsDigit(t[0])
    ensures DigitRuns(ChannelText(c) + t) == Shown(c) + DigitRuns(t)
  {
    if c.Some? {
      RunsAfterDigits(NatText(c.value), t);
    } else {
      RunsAfterNonDigits("NaN", t);
    }
  }

  /** A separator and a channel contribute the channel's run. */
  lemma SeparatedRuns(c: Option<int>, t: string)
    requires c.Some? ==> c.value >= 0
    requires t == [] || !IsDigit(t[0])
    ensures DigitRuns(", " + (ChannelText(c) + t)) == Shown(c) + DigitRuns(t)
  {
    RunsAfterNonDigits(", ", ChannelText(c) + t);
    ChannelRuns(c, t);
  }

  /** The runs of a rebuilt colour are the texts of its numeric channels, in order. */
  lemma RenderRuns(r: Option<int>, g: Option<int>, b: Option<int>)
    requires r.Some? ==> r.value >= 0
    requires g.Some? ==> g.value >= 0
    requires b.Some? ==> b.value >= 0
    ensures DigitRuns(Render(r, g, b)) == Shown(r) + Shown(g) + Shown(b)
  {
    var tg := ", " + (ChannelText(g) + (", " + (ChannelText(b) + ")")));
    TailRuns(g, b);
    ChannelRuns(r, tg);
    OpeningRuns(ChannelText(r) + tg);
  }

  /** The part of a rebuilt colour after its first channel holds the runs of the other two. */
  lemma TailRuns(g: Option<int>, b: Option<int>)
    requires g.Some? ==> g.value >= 0
    requires b.Some? ==> b.value >= 0
    ensures DigitRuns(", " + (ChannelText(g) + (", " + (ChannelText(b) + ")")))) == Shown(g) + Shown(b)
  {
    var tb := ", " + (ChannelText(b) + ")");
    ClosingRuns(b);
    SeparatedRuns(g, tb);
  }

  /** The last channel and the closing parenthesis hold the last channel's run. */
  lemma ClosingRuns(b: Option<int>)
    requires b.Some? ==> b.value >= 0
    ensures DigitRuns(", " + (ChannelText(b) + ")")) == Shown(b)
  {
    RunsAfterNonDigits(")", []);
    assert ")" + [] == ")";
    SeparatedRuns(b, ")");
  }

  /** The opening `rgb(` holds no digit. */
  lemma OpeningRuns(t: string)
    ensures DigitRuns("rgb(" + t) == DigitRuns(t)
  {
    RunsAfterNonDigits("rgb(", t);
  }

  /** `rgb(r, g, b)` reads back as r, g, b. */
  lemma RgbNumbers(r: nat, g: nat, b: nat)
    ensures Numbers(RgbText(r, g, b)) == [r, g, b]
  {
    RenderRuns(Some(r), Some(g), Some(b));
    ValueOfText(r);
    ValueOfText(g);
    ValueOfText(b);
  }

  /** Distinct channels give distinct colour texts. */
  lemma RgbInjective(r: nat, g: nat, b: nat, r': nat, g': nat, b': nat)
    requires RgbText(r, g, b) == RgbText(r', g', b')
    ensures r == r' && g == g' && b == b'
  {
    RgbNumbers(r, g, b);
    RgbNumbers(r', g', b');
  }

  // ------------------------------------------------------------- glow and brightness

  /** The keys of the `glows` object of `getGroupGlow`: exactly the table's group names. */
  function GroupOf(name: string): (g: Option<Group>)
    ensures g.Some? ==> GroupName(g.value) == name
  {
    if name == "alkali" then Some(Alkali)
    else if name == "alkaline" then Some(Alkaline)
    else if name == "transition" then Some(Transition)
    else if name == "metal" then Some(Metal)
    else if name == "semimetal" then Some(Semimetal)
    else if name == "nonmetal" then Some(Nonmetal)
    else if name == "halogen" then Some(Halogen)
    else if name == "noble_gas" then Some(NobleGas)
    else if name == "actinide" then Some(Actinide)
    else if name == "lanthanide" then Some(Lanthanide)
    else None
  }

  /** GroupOf reads a group's name back as the group. */
  lemma GroupOfName(g: Group)
    ensures GroupOf(GroupName(g)) == Some(g)
  {
  }

  /** The channels of each group's glow in `glows`. */
  function Glow(g: Group): (c: (nat, nat, nat))
    ensures c.0 <= 255 && c.1 <= 255 && c.2 <= 255 && c != (150, 150, 150)
  {
    match g
    case Alkali => (255, 100, 100)
    case Alkaline => (255, 200, 100)
    case Transition => (255, 150, 255)
    case Metal => (200, 200, 100)
    case Semimetal => (150, 200, 255)
    case Nonmetal => (100, 255, 100)
    case Halogen => (255, 100, 255)
    case NobleGas => (100, 200, 255)
    case Actinide => (200, 100, 255)
    case Lanthanide => (255, 180, 100)
  }

  /** The glow of a group `glows` does not know. */
  const FALLBACK: string := RgbText(150, 150, 150)

  /** `getGroupGlow(group)`: the group's glow, or grey. */
  function GroupGlow(name: string): string {
    match GroupOf(name)
    case Some(g) => RgbText(Glow(g).0, Glow(g).1, Glow(g).2)
    case None => FALLBACK
  }

  /** The glow is grey exactly for a name that is not a group. */
  lemma GlowFallback(name: string)
    ensures GroupGlow(name) == FALLBACK <==> GroupOf(name).None?
  {
    if GroupOf(name).Some? {
      var c := Glow(GroupOf(name).value);
      if RgbText(c.0, c.1, c.2) == FALLBACK {
        RgbInjective(c.0, c.1, c.2, 150, 150, 150);
      }
    }
  }

  /** `c * factor` for a channel c. */
  function Scale(c: nat, factor: real): (r: real)
    ensures factor >= 0.0 ==> r >= 0.0
  {
    c as real * factor
  }

  /** `Math.min(255, n)`. */
  function Capped(n: int): (c: int)
    ensures c <= 255 && (c == n || (c == 255 && n > 255))
  {
    if n <= 255 then n else 255
  }

  /** `Math.min(255, Math.floor(matches[i] * factor))`; NaN when there is no i-th run. */
  function Channel(runs: seq<string>, i: nat, factor: real): (c: Option<int>)
    requires forall k :: 0 <= k < |runs| ==> AllDigits(runs[k])
    ensures i < |runs| <==> c.Some?
    ensures c.Some? ==> c.value <= 255 && (factor >= 0.0 ==> c.value >= 0)
  {
    if i < |runs| then Some(Capped(Scale(Value(runs[i]), factor).Floor)) else None
  }

  /** `adjustBrightness(rgbColor, factor)`. */
  function AdjustBrightness(color: string, factor: real): (r: string)
    ensures DigitRuns(color) == [] ==> r == color
  {
    var runs := DigitRuns(color);
    if runs == [] then color
    else Render(Channel(runs, 0, factor), Channel(runs, 1, factor), Channel(runs, 2, factor))
  }

  /** The value of a channel that prints as a number, as a list of zero or one numbers. */
  function Listed(c: Option<int>): seq<nat>
    requires c.Some? ==> c.value >= 0
  {
    if c.Some? then [c.value] else []
  }

  /** The digit runs xs denote the numbers ns, one by one. */
  predicate ReadsAs(xs: seq<string>, ns: seq<nat>) {
    |xs| == |ns| && forall k :: 0 <= k < |xs| ==> AllDigits(xs[k]) && Value(xs[k]) == ns[k]
  }

  /** Runs read one after the other denote their numbers one after the other. */
  lemma ReadsAsAppend(xs: seq<string>, ns: seq<nat>, ys: seq<string>, ms: seq<nat>)
    requires ReadsAs(xs, ns) && ReadsAs(ys, ms)
    ensures ReadsAs(xs + ys, ns + ms)
  {
    forall k | 0 <= k < |xs + ys|
      ensures AllDigits((xs + ys)[k]) && Value((xs + ys)[k]) == (ns + ms)[k]
    {
      if k >= |xs| {
        assert (xs + ys)[k] == ys[k - |xs|] && (ns + ms)[k] == ms[k - |xs|];
      }
    }
  }

  /** The text of a numeric channel reads back as its value. */
  lemma ShownReadsAs(c: Option<int>)
    requires c.Some? ==> c.value >= 0
    ensures ReadsAs(Shown(c), Listed(c))
  {
    if c.Some? {
      ValueOfText(c.value);
    }
  }

  /** A rebuilt colour reads back as its numeric channels, in order. */
  lemma RenderNumbers(r: Option<int>, g: Option<int>, b: Option<int>)
    requires r.Some? ==> r.value >= 0
    requires g.Some? ==> g.value >= 0
    requires b.Some? ==> b.value >= 0
    ensures Numbers(Render(r, g, b)) == Listed(r) + Listed(g) + Listed(b)
  {
    RenderRuns(r, g, b);
    ShownReadsAs(r);
    ShownReadsAs(g);
    ShownReadsAs(b);
    ReadsAsAppend(Shown(r), Listed(r), Shown(g), Listed(g));
    ReadsAsAppend(Shown(r) + Shown(g), Listed(r) + Listed(g), Shown(b), Listed(b));
  }

  /**
   * For a non-negative factor: a colour with three or more numbers becomes one whose three numbers
   * are the first three scaled, floored and capped at 255; a colour with one or two numbers keeps
   * that many (the missing channels print NaN).
   */
  lemma AdjustNumbers(color: string, factor: real)
    requires factor >= 0.0 && DigitRuns(color) != []
    ensures var runs, r := DigitRuns(color), AdjustBrightness(color, factor);
      var n := if |runs| < 3 then |runs| else 3;
      |Numbers(r)| == n &&
      forall k :: 0 <= k < n ==> Numbers(r)[k] == Capped(Scale(Value(runs[k]), factor).Floor)
  {
    var runs := DigitRuns(color);
    var c0, c1, c2 := Channel(runs, 0, factor), Channel(runs, 1, factor), Channel(runs, 2, factor);
    assert AdjustBrightness(color, factor) == Render(c0, c1, c2);
    RenderNumbers(c0, c1, c2);
    ListedChannels(runs, factor);
  }

  /** The numeric channels of `adjustBrightness`: the first three runs, scaled, floored and capped. */
  lemma ListedChannels(runs: seq<string>, factor: real)
    requires factor >= 0.0 && runs != [] && forall k :: 0 <= k < |runs| ==> AllDigits(runs[k])
    ensures var ns := Listed(Channel(runs, 0, factor)) + Listed(Channel(runs, 1, factor)) + Listed(Channel(runs, 2, factor));
      var n := if |runs| < 3 then |runs| else 3;
      |ns| == n && forall k :: 0 <= k < n ==> ns[k] == Capped(Scale(Value(runs[k]), factor).Floor)
  {
    var c0, c1, c2 := Channel(runs, 0, factor), Channel(runs, 1, factor), Channel(runs, 2, factor);
    var ns := Listed(c0) + Listed(c1) + Listed(c2);
    if |runs| >= 3 {
      assert ns == [c0.value, c1.value, c2.value];
    } else if |runs| == 2 {
      assert ns == [c0.value, c1.value];
    } else {
      assert ns == [c0.value];
    }
  }

  /** Factor 1 leaves a colour whose channels are at most 255 as it is. */
  lemma AdjustByOne(r: nat, g: nat, b: nat)
    requires r <= 255 && g <= 255 && b <= 255
    ensures AdjustBrightness(RgbText(r, g, b), 1.0) == RgbText(r, g, b)
  {
    var runs := DigitRuns(RgbText(r, g, b));
    RenderRuns(Some(r), Some(g), Some(b));
    assert runs == [NatText(r), NatText(g), NatText(b)];
    ChannelByOne(runs, 0, r);
    ChannelByOne(runs, 1, g);
    ChannelByOne(runs, 2, b);
  }

  /** Factor 1 gives back a channel of at most 255. */
  lemma ChannelByOne(runs: seq<string>, i: nat, n: nat)
    requires forall k :: 0 <= k < |runs| ==> AllDigits(runs[k])
    requires i < |runs| && runs[i] == NatText(n) && n <= 255
    ensures Channel(runs, i, 1.0) == Some(n)
  {
    ValueOfText(n);
  }

  /** The border colour of a tile: the group's glow, brightened for a gas and dimmed for a liquid. */
  function BorderColor(e: Element): string {
    var glow := GroupGlow(GroupName(e.group));
    match e.state
    case Gas => AdjustBrightness(glow, 1.3)
    case Liquid => AdjustBrightness(glow, 0.8)
    case Solid => glow
  }

  /**
   * Every border colour is a colour of three channels in [0, 255]: the group's glow for a solid,
   * and that glow brightened or dimmed otherwise.
   */
  lemma BorderIsColour(e: Element)
    ensures var n := Numbers(BorderColor(e)); |n| == 3 && n[0] <= 255 && n[1] <= 255 && n[2] <= 255
    ensures e.state == Solid ==> Numbers(BorderColor(e)) == [Glow(e.group).0, Glow(e.group).1, Glow(e.group).2]
  {
    var c := Glow(e.group);
    GroupOfName(e.group);
    var glow := RgbText(c.0, c.1, c.2);
    assert GroupGlow(GroupName(e.group)) == glow;
    RgbNumbers(c.0, c.1, c.2);
    if e.state == Gas {
      AdjustNumbers(glow, 1.3);
    } else if e.state == Liquid {
      AdjustNumbers(glow, 0.8);
    }
  }
}
