/**
 * The material table and the per-cell record of the falling-sand world (src/materials.js).
 * Material ids are the integer codes of `MaterialType`; the registry maps each of the 20
 * codes to the record the `Material` constructor builds from its declared properties.
 */
module Materials {
  import opened Common

  const AIR: int := 0
  const STONE: int := 1
  const DIRT: int := 2
  const SAND: int := 3
  const WATER: int := 4
  const LAVA: int := 5
  const WOOD: int := 6
  const OIL: int := 7
  const FIRE: int := 8
  const STEAM: int := 9
  const SMOKE: int := 10
  const METAL: int := 11
  const GOLD: int := 12
  const ICE: int := 13
  const SNOW: int := 14
  const ACID: int := 15
  const POISON: int := 16
  const ELECTRICITY: int := 17
  const GUNPOWDER: int := 18
  const COAL: int := 19

  /** The registered material codes. */
  type TypeId = t: int | 0 <= t < 20

  datatype State = Solid | Liquid | Gas | Powder

  /**
   * The properties object a registry entry passes to `new Material`; an absent number is 0. The
   * display colours, which only the renderer reads, are not modelled.
   */
  datatype Props = Props(
    state: Option<State>,
    density: real,
    flammable: bool,
    burnTime: real,
    conductive: bool,
    explosive: bool,
    corrosive: bool,
    spreads: bool,
    emitsLight: bool)

  datatype Material = Material(
    id: TypeId,
    state: State,
    density: real,
    flammable: bool,
    burnTime: real,
    conductive: bool,
    explosive: bool,
    corrosive: bool,
    spreads: bool,
    emitsLight: bool)

  /** The `Material` constructor: `state || 'solid'` and `density || 1` fill in falsy values. */
  function Build(id: TypeId, p: Props): (m: Material)
    ensures m.id == id
    ensures p.state.Some? ==> m.state == p.state.value
    ensures p.state.None? ==> m.state == Solid
    ensures p.density != 0.0 ==> m.density == p.density
    ensures p.density == 0.0 ==> m.density == 1.0
  {
    Material(id,
      if p.state.Some? then p.state.value else Solid,
      if p.density != 0.0 then p.density else 1.0,
      p.flammable, p.burnTime, p.conductive, p.explosive, p.corrosive,
      p.spreads, p.emitsLight)
  }

  function Plain(state: State, density: real): Props {
    Props(Some(state), density, false, 0.0, false, false, false, false, false)
  }

  function Glowing(p: Props): Props {
    p.(emitsLight := true)
  }

  /** The properties registry entry t declares. */
  function Entry(t: TypeId): Props {
    if t == AIR then Plain(Gas, 0.0)
    else if t == STONE then Plain(Solid, 10.0)
    else if t == DIRT then Plain(Powder, 3.0)
    else if t == SAND then Plain(Powder, 2.0)
    else if t == WOOD then Plain(Solid, 5.0).(flammable := true, burnTime := 3.0)
    else if t == COAL then Plain(Solid, 6.0).(flammable := true, burnTime := 8.0)
    else if t == METAL then Plain(Solid, 15.0).(conductive := true)
    else if t == GOLD then
      Glowing(Plain(Solid, 20.0).(conductive := true))
    else if t == ICE then Plain(Solid, 4.0)
    else if t == SNOW then Plain(Powder, 1.0)
    else if t == GUNPOWDER then
      Plain(Powder, 2.0).(explosive := true, flammable := true, burnTime := 0.1)
    else if t == WATER then Plain(Liquid, 1.0)
    else if t == OIL then Plain(Liquid, 0.9).(flammable := true, burnTime := 1.5)
    else if t == LAVA then Glowing(Plain(Liquid, 3.0))
    else if t == ACID then Plain(Liquid, 1.2).(corrosive := true)
    else if t == POISON then Plain(Liquid, 1.1)
    else if t == FIRE then
      Glowing(Plain(Gas, 0.1).(spreads := true))
    else if t == STEAM then Plain(Gas, 0.2)
    else if t == SMOKE then Plain(Gas, 0.15)
    else if t == ELECTRICITY then
      Glowing(Plain(Gas, 0.0).(spreads := true))
    else Plain(Solid, 2.0) // unreachable: the codes are exhausted above
  }

  /**
   * The registry searched from code i upwards for entry t. Looking entries up one code at a time
   * keeps a proof about an unknown code from unfolding the whole table; SearchFinds shows the
   * search lands on entry t.
   */
  function Search(t: TypeId, i: TypeId): Props
    requires i <= t
    decreases t - i
  {
    if i == t then Entry(i) else Search(t, i + 1)
  }

  /** The properties the registry declares for code t (`MATERIALS[t]` before construction). */
  function Declared(t: TypeId): Props {
    Search(t, 0)
  }

  lemma {:induction false} SearchFinds(t: TypeId, i: TypeId)
    requires i <= t
    ensures Search(t, i) == Entry(t)
    decreases t - i
  {
    if i < t {
      SearchFinds(t, i + 1);
    }
  }

  /** `MATERIALS[t]` for a registered code. */
  function MaterialOf(t: TypeId): Material {
    Build(t, Declared(t))
  }

  /** `MATERIALS[id]` for any number: JavaScript yields `undefined` for an unregistered id. */
  function Lookup(id: int): (m: Option<Material>)
    ensures m.Some? <==> 0 <= id < 20
    ensures m.Some? ==> m.value.id == id
  {
    if 0 <= id < 20 then Some(MaterialOf(id)) else None
  }

  /** The optional extra record of a cell; the source only ever stores a burning record. */
  datatype CellData = NoData | Burning(burnTime: real)

  /** One grid cell (`Pixel`). */
  datatype Pixel = Pixel(kind: TypeId, lifetime: real, temperature: real, updated: bool, data: CellData)

  /** `new Pixel(type)`; the source's default type is AIR. */
  function NewPixel(t: TypeId := AIR): (p: Pixel)
    ensures p.kind == t && p.lifetime == 0.0 && p.temperature == 0.0
    ensures !p.updated && p.data == NoData
  {
    Pixel(t, 0.0, 0.0, false, NoData)
  }

  function MaterialAt(p: Pixel): Material {
    MaterialOf(p.kind)
  }

  predicate IsEmpty(p: Pixel) { p.kind == AIR }
  predicate IsSolid(p: Pixel) { MaterialAt(p).state == Solid }
  predicate IsLiquid(p: Pixel) { MaterialAt(p).state == Liquid }
  predicate IsPowder(p: Pixel) { MaterialAt(p).state == Powder }
  predicate IsGas(p: Pixel) { MaterialAt(p).state == Gas }
  predicate CanMove(p: Pixel) { IsLiquid(p) || IsPowder(p) || IsGas(p) }

  /** A cell carries an active burning record. */
  predicate IsBurning(p: Pixel) { p.data.Burning? }

  // ---------------------------------------------------------------- properties of the table

  /**
   * The registry is keyed by the type code: the record under a code is the one built from the
   * properties declared for that very code, and no two codes share a record.
   */
  lemma RegistryTotal(id: int, other: int)
    ensures 0 <= id < 20 ==> Lookup(id) == Some(Build(id, Entry(id)))
    ensures Lookup(id).Some? && Lookup(id) == Lookup(other) ==> id == other
  {
    if 0 <= id < 20 {
      SearchFinds(id, 0);
    }
  }

  /** `density || 1` turns the declared density 0 of AIR and ELECTRICITY into 1. */
  lemma EffectiveDensity(t: TypeId)
    ensures (t == AIR || t == ELECTRICITY) <==> Declared(t).density == 0.0
    ensures MaterialOf(t).density == if t == AIR || t == ELECTRICITY then 1.0 else Declared(t).density
    ensures MaterialOf(t).density > 0.0
  {
    SearchFinds(t, 0);
  }

  /** The flammable materials are exactly WOOD, COAL, GUNPOWDER and OIL, each with a burn time. */
  lemma FlammableMaterials(t: TypeId)
    ensures MaterialOf(t).flammable <==> t == WOOD || t == COAL || t == GUNPOWDER || t == OIL
    ensures MaterialOf(t).flammable ==> MaterialOf(t).burnTime > 0.0
  {
    SearchFinds(t, 0);
  }

  /** Only METAL and GOLD conduct, and GUNPOWDER is the only explosive. */
  lemma ConductiveAndExplosive(t: TypeId)
    ensures MaterialOf(t).conductive <==> t == METAL || t == GOLD
    ensures MaterialOf(t).explosive <==> t == GUNPOWDER
  {
    SearchFinds(t, 0);
  }

  /** Only FIRE and ELECTRICITY spread, and both are gases. */
  lemma SpreadingGases(t: TypeId)
    ensures MaterialOf(t).spreads <==> t == FIRE || t == ELECTRICITY
    ensures MaterialOf(t).spreads ==> MaterialOf(t).state == Gas
  {
    SearchFinds(t, 0);
  }

  /** Every liquid and powder is at least as dense as OIL (0.9). */
  lemma FluidsAreDense(t: TypeId)
    ensures MaterialOf(t).state == Liquid || MaterialOf(t).state == Powder ==> MaterialOf(t).density >= 0.9
  {
    SearchFinds(t, 0);
  }

  function Count(b: bool): nat { if b then 1 else 0 }

  /** The phase queries partition every cell, and `canMove` is the negation of `isSolid`. */
  lemma OnePhase(p: Pixel)
    ensures Count(IsSolid(p)) + Count(IsLiquid(p)) + Count(IsPowder(p)) + Count(IsGas(p)) == 1
    ensures CanMove(p) <==> !IsSolid(p)
  {
  }

  /** AIR is the empty material, and it is a gas. */
  lemma AirIsEmptyGas(p: Pixel)
    ensures IsEmpty(p) <==> p.kind == AIR
    ensures IsEmpty(p) ==> IsGas(p) && !IsSolid(p)
  {
  }
}
