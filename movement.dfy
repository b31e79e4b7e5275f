/**
 * The movement rules of `PhysicsWorld` as functions on a grid value: `updatePowder`,
 * `updateLiquid` and `updateGas` (src/physics.js:171-253). Each rule reads random draws
 * `d(k), d(k + 1), ...` and returns how many it used, the new grid, and where the record it was
 * asked to process now sits (the scan marks that record as updated).
 */
module Movement {
  import opened Common
  import opened Config
  import opened Materials
  import opened Grid

  /** A rule's result: the new grid, the next unused draw, and the processed record's position. */
  datatype Outcome = Outcome(cells: Cells, used: nat, x: int, y: int)

  /**
   * What every rule keeps: the grid's shape, and the processed record (from (x, y)) sits in
   * bounds at (o.x, o.y) with the flag it had.
   */
  predicate Tracks(g: Cells, x: int, y: int, o: Outcome)
    requires InBounds(g, x, y)
  {
    SameShape(g, o.cells) && InBounds(o.cells, o.x, o.y) && o.cells[o.y][o.x].updated == g[y][x].updated
  }

  /** The direction a draw picks: `Math.random() < 0.5 ? -1 : 1`. */
  function Dir(r: Unit): (dir: int)
    ensures dir == -1 || dir == 1
  {
    if r < 0.5 then -1 else 1
  }

  /**
   * The index of the first target the record at (x, y) can displace, or |ts| when there is none:
   * the chain of `if (canDisplace(...)) { swap(...); return; }` tests.
   */
  function FirstFree(g: Cells, x: int, y: int, ts: seq<(int, int)>): (i: nat)
    ensures i <= |ts|
    ensures forall j :: 0 <= j < i ==> !CanDisplace(g, x, y, ts[j].0, ts[j].1)
    ensures i < |ts| ==> CanDisplace(g, x, y, ts[i].0, ts[i].1)
    decreases |ts|
  {
    if ts == [] then 0
    else if CanDisplace(g, x, y, ts[0].0, ts[0].1) then 0
    else 1 + FirstFree(g, x, y, ts[1..])
  }

  /** What a movement rule decides for the record at (x, y). */
  datatype Action = Stay | MoveTo(tx: int, ty: int) | Vanish

  /** A decision and the next unused draw. */
  datatype Choice = Choice(act: Action, used: nat)

  /** A move is only ever into a cell the record can displace. */
  predicate Legal(g: Cells, x: int, y: int, a: Action) {
    a.MoveTo? ==> CanDisplace(g, x, y, a.tx, a.ty)
  }

  /** Carry out a decision: `swap` with the target, or `setPixel(x, y, AIR)`. */
  function Apply(g: Cells, x: int, y: int, c: Choice): (o: Outcome)
    requires InBounds(g, x, y) && Legal(g, x, y, c.act)
    ensures Tracks(g, x, y, o) && o.used == c.used
    ensures c.act.MoveTo? ==> (o.x, o.y) == (c.act.tx, c.act.ty) && o.cells[y][x] == g[o.y][o.x]
    ensures !c.act.MoveTo? ==> (o.x, o.y) == (x, y)
  {
    match c.act
    case Stay => Outcome(g, c.used, x, y)
    case MoveTo(tx, ty) => Outcome(Swap(g, x, y, tx, ty), c.used, tx, ty)
    case Vanish => Outcome(SetPixel(g, x, y, AIR), c.used, x, y)
  }

  /** Move to the first target the record can displace; stay when there is none. */
  function First(g: Cells, x: int, y: int, ts: seq<(int, int)>, k: nat): (c: Choice)
    ensures Legal(g, x, y, c.act) && !c.act.Vanish? && c.used == k
    ensures c.act.Stay? <==> FirstFree(g, x, y, ts) == |ts|
    ensures c.act.MoveTo? ==> (c.act.tx, c.act.ty) == ts[FirstFree(g, x, y, ts)]
  {
    var i := FirstFree(g, x, y, ts);
    if i == |ts| then Choice(Stay, k) else Choice(MoveTo(ts[i].0, ts[i].1), k)
  }

  /** Over two targets, First is the source's pair of tests: the first target, else the second. */
  lemma FirstOfTwo(g: Cells, x: int, y: int, a: (int, int), b: (int, int), k: nat)
    ensures First(g, x, y, [a, b], k) ==
      if CanDisplace(g, x, y, a.0, a.1) then Choice(MoveTo(a.0, a.1), k)
      else if CanDisplace(g, x, y, b.0, b.1) then Choice(MoveTo(b.0, b.1), k)
      else Choice(Stay, k)
  {
    var ts := [a, b];
    assert ts[1..] == [b] && [b][1..] == [];
    if !CanDisplace(g, x, y, a.0, a.1) {
      assert FirstFree(g, x, y, ts) == 1 + FirstFree(g, x, y, [b]);
    }
  }

  /** Which target First picks does not depend on the draw cursor. */
  lemma FirstMoves(g: Cells, x: int, y: int, ts: seq<(int, int)>, k: nat, k': nat)
    ensures First(g, x, y, ts, k').act == First(g, x, y, ts, k).act
  {
  }

  /** The decision of `updatePowder(x, y)`: down, else the two diagonals below in a random order. */
  function PowderChoice(g: Cells, x: int, y: int, d: Draws, k: nat): (c: Choice)
    ensures Legal(g, x, y, c.act) && !c.act.Vanish?
  {
    if y >= |g| - 1 then Choice(Stay, k)
    else if CanDisplace(g, x, y, x, y + 1) then Choice(MoveTo(x, y + 1), k)
    else
      var dir := Dir(d(k));
      First(g, x, y, [(x + dir, y + 1), (x - dir, y + 1)], k + 1)
  }

  /** `updatePowder(x, y)`. */
  function PowderStep(g: Cells, x: int, y: int, d: Draws, k: nat): (o: Outcome)
    requires InBounds(g, x, y)
    ensures Tracks(g, x, y, o)
  {
    Apply(g, x, y, PowderChoice(g, x, y, d, k))
  }

  /**
   * The decision of `updateLiquid(x, y)`: like a powder, then sideways when the flow roll is under
   * the flow speed.
   */
  function LiquidChoice(g: Cells, x: int, y: int, d: Draws, k: nat): (c: Choice)
    ensures Legal(g, x, y, c.act) && !c.act.Vanish?
  {
    if y >= |g| - 1 then Choice(Stay, k)
    else if CanDisplace(g, x, y, x, y + 1) then Choice(MoveTo(x, y + 1), k)
    else
      var dir := Dir(d(k));
      var diagonal := First(g, x, y, [(x + dir, y + 1), (x - dir, y + 1)], k + 1);
      if diagonal.act.MoveTo? then diagonal
      else if d(k + 1) < WATER_FLOW_SPEED then First(g, x, y, [(x + dir, y), (x - dir, y)], k + 2)
      else Choice(Stay, k + 2)
  }

  /** `updateLiquid(x, y)`. */
  function LiquidStep(g: Cells, x: int, y: int, d: Draws, k: nat): (o: Outcome)
    requires InBounds(g, x, y)
    ensures Tracks(g, x, y, o)
  {
    Apply(g, x, y, LiquidChoice(g, x, y, d, k))
  }

  /**
   * The decision of `updateGas(x, y)` with the dissipation test reading the gas record's own
   * lifetime: at the top row a 10% chance to vanish; otherwise up, else the diagonals above; when
   * all three are blocked and the gas is older than 3 seconds, a 5% chance to vanish.
   */
  function GasChoice(g: Cells, x: int, y: int, d: Draws, k: nat): (c: Choice)
    requires InBounds(g, x, y)
    ensures Legal(g, x, y, c.act)
  {
    if y <= 0 then Choice(if d(k) < 0.1 then Vanish else Stay, k + 1)
    else if CanDisplace(g, x, y, x, y - 1) then Choice(MoveTo(x, y - 1), k)
    else
      var dir := Dir(d(k));
      var diagonal := First(g, x, y, [(x + dir, y - 1), (x - dir, y - 1)], k + 1);
      if diagonal.act.MoveTo? then diagonal
      else if g[y][x].lifetime > 3.0 then Choice(if d(k + 1) < 0.05 then Vanish else Stay, k + 2)
      else diagonal
  }

  /** `updateGas(x, y)`, corrected. */
  function GasStep(g: Cells, x: int, y: int, d: Draws, k: nat): (o: Outcome)
    requires InBounds(g, x, y)
    ensures Tracks(g, x, y, o)
  {
    Apply(g, x, y, GasChoice(g, x, y, d, k))
  }

  /** How the as-written gas rule can end besides a decision: the error the engine raises. */
  datatype GasError = ReferenceError(name: string)

  /**
   * The decision of `updateGas(x, y)` as written: the dissipation test names a variable `pixel`
   * that the method never declares, so reaching it raises a ReferenceError.
   */
  function GasChoiceAsWritten(g: Cells, x: int, y: int, d: Draws, k: nat): (r: Result<Choice, GasError>)
    ensures r.Success? ==> Legal(g, x, y, r.value.act)
  {
    if y <= 0 then Success(Choice(if d(k) < 0.1 then Vanish else Stay, k + 1))
    else if CanDisplace(g, x, y, x, y - 1) then Success(Choice(MoveTo(x, y - 1), k))
    else
      var dir := Dir(d(k));
      var diagonal := First(g, x, y, [(x + dir, y - 1), (x - dir, y - 1)], k + 1);
      if diagonal.act.MoveTo? then Success(diagonal)
      else Failure(ReferenceError("pixel"))
  }

  // ------------------------------------------------------------- properties

  /** None of the three cells of row ty at columns x - 1, x, x + 1 can be displaced from (x, y). */
  predicate Blocked(g: Cells, x: int, y: int, ty: int) {
    !CanDisplace(g, x, y, x - 1, ty) && !CanDisplace(g, x, y, x, ty) && !CanDisplace(g, x, y, x + 1, ty)
  }

  /**
   * Carrying out a decision keeps the number of flagged records; staying or moving also keeps
   * the multiset of records, since a move only exchanges two of them.
   */
  lemma ApplyCensus(g: Cells, x: int, y: int, c: Choice)
    requires InBounds(g, x, y) && Legal(g, x, y, c.act)
    ensures Flagged(Apply(g, x, y, c).cells) == Flagged(g)
    ensures !c.act.Vanish? ==> Records(Apply(g, x, y, c).cells) == Records(g)
  {
    match c.act
    case Stay =>
    case MoveTo(tx, ty) => SwapCensus(g, x, y, tx, ty);
    case Vanish => SameFlagsFlagged(g, SetPixel(g, x, y, AIR));
  }

  /**
   * Powder and liquid steps conserve matter: the grid afterwards holds exactly the records it
   * held before, and as many of them are flagged.
   */
  lemma MovesConserve(g: Cells, x: int, y: int, d: Draws, k: nat)
    requires InBounds(g, x, y)
    ensures Records(PowderStep(g, x, y, d, k).cells) == Records(g)
    ensures Records(LiquidStep(g, x, y, d, k).cells) == Records(g)
    ensures Flagged(PowderStep(g, x, y, d, k).cells) == Flagged(g)
    ensures Flagged(LiquidStep(g, x, y, d, k).cells) == Flagged(g)
  {
    ApplyCensus(g, x, y, PowderChoice(g, x, y, d, k));
    ApplyCensus(g, x, y, LiquidChoice(g, x, y, d, k));
  }

  /** Carrying out a move is exactly one swap; staying changes nothing. */
  lemma ApplyIsOneSwap(g: Cells, x: int, y: int, c: Choice)
    requires InBounds(g, x, y) && Legal(g, x, y, c.act)
    ensures c.act.Stay? ==> Apply(g, x, y, c).cells == g
    ensures c.act.MoveTo? ==> Apply(g, x, y, c).cells == Swap(g, x, y, c.act.tx, c.act.ty)
    ensures c.act.Vanish? ==> Apply(g, x, y, c).cells == SetPixel(g, x, y, AIR)
  {
  }

  /**
   * Trying the two cells of row ty beside column x, in the order a direction picks: the record
   * stays exactly when neither can be displaced, and otherwise moves into one of them.
   */
  lemma Sideways(g: Cells, x: int, y: int, ty: int, dir: int, k: nat)
    requires dir == -1 || dir == 1
    ensures var c := First(g, x, y, [(x + dir, ty), (x - dir, ty)], k);
      (c.act.Stay? <==> !CanDisplace(g, x, y, x - 1, ty) && !CanDisplace(g, x, y, x + 1, ty)) &&
      (c.act.MoveTo? ==> c.act.ty == ty && (c.act.tx == x - 1 || c.act.tx == x + 1))
  {
    var ts := [(x + dir, ty), (x - dir, ty)];
    if FirstFree(g, x, y, ts) == 2 {
      assert !CanDisplace(g, x, y, ts[0].0, ts[0].1) && !CanDisplace(g, x, y, ts[1].0, ts[1].1);
    }
  }

  /**
   * A powder record never vanishes; it moves only one row down and at most one column aside,
   * never from the bottom row, falls straight down without a draw whenever it can, and stays
   * exactly when none of the three cells below can be displaced.
   */
  lemma PowderRule(g: Cells, x: int, y: int, d: Draws, k: nat)
    ensures var c := PowderChoice(g, x, y, d, k);
      (c.act.MoveTo? ==> c.act.ty == y + 1 && x - 1 <= c.act.tx <= x + 1) &&
      (y >= |g| - 1 ==> c.act.Stay?) &&
      (CanDisplace(g, x, y, x, y + 1) ==> c == Choice(MoveTo(x, y + 1), k)) &&
      (c.act.Stay? <==> Blocked(g, x, y, y + 1))
  {
    if y < |g| - 1 && !CanDisplace(g, x, y, x, y + 1) {
      Sideways(g, x, y, y + 1, Dir(d(k)), k + 1);
    }
  }

  /**
   * A liquid record never vanishes; it falls like a powder, never leaves the bottom row, moves
   * sideways (one column, same row) only when all three cells below are blocked and its flow roll
   * is under WATER_FLOW_SPEED, and stays exactly when it can go neither down nor, with that roll,
   * sideways.
   */
  lemma LiquidRule(g: Cells, x: int, y: int, d: Draws, k: nat)
    ensures var c := LiquidChoice(g, x, y, d, k);
      (c.act.MoveTo? ==> (c.act.ty == y || c.act.ty == y + 1) && x - 1 <= c.act.tx <= x + 1) &&
      (y >= |g| - 1 ==> c.act.Stay?) &&
      (CanDisplace(g, x, y, x, y + 1) ==> c == Choice(MoveTo(x, y + 1), k)) &&
      (c.act.MoveTo? && c.act.ty == y ==> Blocked(g, x, y, y + 1) && d(k + 1) < WATER_FLOW_SPEED) &&
      (c.act.Stay? <==>
         Blocked(g, x, y, y + 1) &&
         (y >= |g| - 1 || d(k + 1) >= WATER_FLOW_SPEED ||
          (!CanDisplace(g, x, y, x - 1, y) && !CanDisplace(g, x, y, x + 1, y))))
  {
    if y < |g| - 1 && !CanDisplace(g, x, y, x, y + 1) {
      var dir := Dir(d(k));
      Sideways(g, x, y, y + 1, dir, k + 1);
      Sideways(g, x, y, y, dir, k + 2);
    }
  }

  /**
   * A gas record on the top row only vanishes (with a draw under 0.1) or stays; below it, it rises
   * straight up whenever it can and otherwise into a displaceable diagonal above, and when all
   * three cells above are blocked it stays, or vanishes exactly when it is older than 3 seconds
   * and its next draw is under 0.05.
   */
  lemma GasRule(g: Cells, x: int, y: int, d: Draws, k: nat)
    requires InBounds(g, x, y)
    ensures var c := GasChoice(g, x, y, d, k);
      (y == 0 ==> c == Choice(if d(k) < 0.1 then Vanish else Stay, k + 1)) &&
      (c.act.MoveTo? ==> c.act.ty == y - 1 && x - 1 <= c.act.tx <= x + 1) &&
      (y > 0 && CanDisplace(g, x, y, x, y - 1) ==> c == Choice(MoveTo(x, y - 1), k)) &&
      (y > 0 ==> (c.act.MoveTo? <==> !Blocked(g, x, y, y - 1))) &&
      (y > 0 && Blocked(g, x, y, y - 1) ==>
         (c.act.Vanish? <==> g[y][x].lifetime > 3.0 && d(k + 1) < 0.05))
  {
    if y > 0 && !CanDisplace(g, x, y, x, y - 1) {
      Sideways(g, x, y, y - 1, Dir(d(k)), k + 1);
    }
  }

  /**
   * The as-written gas rule raises its ReferenceError exactly when the gas is below the top row and
   * none of the three cells above can be displaced; whenever it does not, it decides as GasChoice.
   */
  lemma GasAsWrittenFailsWhenBlocked(g: Cells, x: int, y: int, d: Draws, k: nat)
    requires InBounds(g, x, y)
    ensures var r := GasChoiceAsWritten(g, x, y, d, k);
      (r.Failure? <==> y > 0 && Blocked(g, x, y, y - 1)) &&
      (r.Success? ==> r.value == GasChoice(g, x, y, d, k))
  {
    if y > 0 && !CanDisplace(g, x, y, x, y - 1) {
      Sideways(g, x, y, y - 1, Dir(d(k)), k + 1);
    }
  }

  /** A one-column world: STONE over a steam cell. */
  function SteamUnderStone(): Cells {
    [[NewPixel(STONE)], [NewPixel(STEAM)]]
  }

  /**
   * On the grid above, the steam at (0, 1) cannot rise (stone above, the diagonals are outside the
   * grid), so the as-written rule reaches the undeclared name on the first frame, whatever the
   * draws; the corrected rule leaves the grid as it is (a fresh record has lifetime 0).
   */
  lemma SteamUnderStoneRaises(d: Draws)
    ensures GasChoiceAsWritten(SteamUnderStone(), 0, 1, d, 0) == Failure(ReferenceError("pixel"))
    ensures GasChoice(SteamUnderStone(), 0, 1, d, 0).act == Stay
  {
    var g := SteamUnderStone();
    assert !CanDisplace(g, 0, 1, 0, 0);
    assert !InBounds(g, -1, 0) && !InBounds(g, 1, 0);
  }
}
