/**
 * The cell grid of `PhysicsWorld` as a value (src/physics.js:72-96, 335-344): rows indexed by y
 * (growing downwards), each row indexed by x. The functions here are the specification of the
 * grid primitives; the class in physics.dfy performs them in place.
 */
module Grid {
  import opened Common
  import opened Materials

  type Cells = seq<seq<Pixel>>

  predicate InBounds(g: Cells, x: int, y: int) {
    0 <= y < |g| && 0 <= x < |g[y]|
  }

  /** Every row has width w. */
  predicate Rect(g: Cells, w: nat) {
    forall i :: 0 <= i < |g| ==> |g[i]| == w
  }

  /** r has the rows and row lengths of g. */
  predicate SameShape(g: Cells, r: Cells) {
    |r| == |g| && forall i :: 0 <= i < |g| ==> |r[i]| == |g[i]|
  }

  /** Every record of r has the `updated` flag of the record at the same place in g. */
  predicate SameFlags(g: Cells, r: Cells) {
    SameShape(g, r) &&
    forall i, j :: 0 <= i < |g| && 0 <= j < |g[i]| ==> r[i][j].updated == g[i][j].updated
  }

  /** r differs from g at most in cell (x, y). */
  predicate OnlyAt(g: Cells, r: Cells, x: int, y: int) {
    SameShape(g, r) &&
    forall i, j :: 0 <= i < |g| && 0 <= j < |g[i]| && (i != y || j != x) ==> r[i][j] == g[i][j]
  }

  // ------------------------------------------------------------- census of the records

  function Flag(p: Pixel): nat { if p.updated then 1 else 0 }

  function RowFlagged(row: seq<Pixel>): nat {
    if row == [] then 0 else RowFlagged(row[..|row| - 1]) + Flag(row[|row| - 1])
  }

  /** The number of records whose `updated` flag is set. */
  function Flagged(g: Cells): nat {
    if g == [] then 0 else Flagged(g[..|g| - 1]) + RowFlagged(g[|g| - 1])
  }

  /** The multiset of all records of the grid. */
  function Records(g: Cells): multiset<Pixel> {
    if g == [] then multiset{} else Records(g[..|g| - 1]) + multiset(g[|g| - 1])
  }

  lemma {:induction false} RowFlaggedPut(row: seq<Pixel>, x: nat, p: Pixel)
    requires x < |row|
    ensures RowFlagged(row[x := p]) + Flag(row[x]) == RowFlagged(row) + Flag(p)
  {
    var n := |row|;
    if x == n - 1 {
      assert row[x := p][..n - 1] == row[..n - 1];
    } else {
      assert row[x := p][..n - 1] == row[..n - 1][x := p];
      RowFlaggedPut(row[..n - 1], x, p);
    }
  }

  lemma {:induction false} FlaggedPutRow(g: Cells, y: nat, row: seq<Pixel>)
    requires y < |g|
    ensures Flagged(g[y := row]) + RowFlagged(g[y]) == Flagged(g) + RowFlagged(row)
  {
    var n := |g|;
    if y == n - 1 {
      assert g[y := row][..n - 1] == g[..n - 1];
    } else {
      assert g[y := row][..n - 1] == g[..n - 1][y := row];
      FlaggedPutRow(g[..n - 1], y, row);
    }
  }

  lemma {:induction false} RecordsPutRow(g: Cells, y: nat, row: seq<Pixel>)
    requires y < |g|
    ensures Records(g[y := row]) + multiset(g[y]) == Records(g) + multiset(row)
  {
    var n := |g|;
    if y == n - 1 {
      assert g[y := row][..n - 1] == g[..n - 1];
    } else {
      var g' := g[y := row];
      assert g'[..n - 1] == g[..n - 1][y := row];
      RecordsPutRow(g[..n - 1], y, row);
      assert g[..n - 1][y] == g[y];
      assert g'[n - 1] == g[n - 1];
      var A, B := Records(g[..n - 1][y := row]), Records(g[..n - 1]);
      assert A + multiset(g[y]) == B + multiset(row);
      assert Records(g') == A + multiset(g[n - 1]);
      assert Records(g) == B + multiset(g[n - 1]);
      assert Records(g') + multiset(g[y]) == A + multiset(g[y]) + multiset(g[n - 1]);
    }
  }

  lemma RowMultisetPut(row: seq<Pixel>, x: nat, p: Pixel)
    requires x < |row|
    ensures multiset(row[x := p]) + multiset{row[x]} == multiset(row) + multiset{p}
  {
  }

  lemma Cancel(a: multiset<Pixel>, b: multiset<Pixel>, m: multiset<Pixel>)
    requires a + m == b + m
    ensures a == b
  {
    assert forall o :: a[o] == (a + m)[o] - m[o] == (b + m)[o] - m[o] == b[o];
  }

  lemma Exchange(r': multiset<Pixel>, r: multiset<Pixel>, m: multiset<Pixel>, m': multiset<Pixel>,
                 a: multiset<Pixel>, p: multiset<Pixel>)
    requires r' + m == r + m'
    requires m' + a == m + p
    ensures r' + a == r + p
  {
    forall o
      ensures (r' + a)[o] == (r + p)[o]
    {
      assert (r' + m)[o] == (r + m')[o];
      assert (m' + a)[o] == (m + p)[o];
    }
  }

  /** Replacing one record changes the flag count by exactly that record's flag. */
  lemma PutFlagged(g: Cells, x: int, y: int, p: Pixel)
    requires InBounds(g, x, y)
    ensures Flagged(Put(g, x, y, p)) + Flag(g[y][x]) == Flagged(g) + Flag(p)
  {
    RowFlaggedPut(g[y], x, p);
    FlaggedPutRow(g, y, g[y][x := p]);
  }

  /** Replacing one record changes the multiset of records by exactly that record. */
  lemma PutRecords(g: Cells, x: int, y: int, p: Pixel)
    requires InBounds(g, x, y)
    ensures Records(Put(g, x, y, p)) + multiset{g[y][x]} == Records(g) + multiset{p}
  {
    var row := g[y][x := p];
    RecordsPutRow(g, y, row);
    RowMultisetPut(g[y], x, p);
    Exchange(Records(g[y := row]), Records(g), multiset(g[y]), multiset(row), multiset{g[y][x]}, multiset{p});
  }

  /** Grids whose records carry the same flags, place by place, have the same flag count. */
  lemma {:induction false} SameFlagsFlagged(g: Cells, r: Cells)
    requires SameFlags(g, r)
    ensures Flagged(r) == Flagged(g)
  {
    if g != [] {
      var n := |g|;
      SameFlagsFlagged(g[..n - 1], r[..n - 1]);
      SameFlagsRow(g[n - 1], r[n - 1]);
    }
  }

  lemma {:induction false} SameFlagsRow(a: seq<Pixel>, b: seq<Pixel>)
    requires |a| == |b| && forall j :: 0 <= j < |a| ==> b[j].updated == a[j].updated
    ensures RowFlagged(b) == RowFlagged(a)
  {
    if a != [] {
      SameFlagsRow(a[..|a| - 1], b[..|b| - 1]);
    }
  }

  lemma SameFlagsTrans(a: Cells, b: Cells, c: Cells)
    requires SameFlags(a, b) && SameFlags(b, c)
    ensures SameFlags(a, c)
  {
  }

  // ------------------------------------------------------------- primitives

  function Get(g: Cells, x: int, y: int): (r: Option<Pixel>)
    ensures r.None? <==> !InBounds(g, x, y)
    ensures r.Some? ==> r.value == g[y][x]
  {
    if InBounds(g, x, y) then Some(g[y][x]) else None
  }

  /** Store record p at (x, y). */
  function Put(g: Cells, x: int, y: int, p: Pixel): (r: Cells)
    requires InBounds(g, x, y)
    ensures OnlyAt(g, r, x, y) && r[y][x] == p
  {
    g[y := g[y][x := p]]
  }

  /** The in-place write of `setPixel`: a new type and a zero lifetime, nothing else. */
  function Retype(p: Pixel, t: TypeId): Pixel {
    p.(kind := t, lifetime := 0.0)
  }

  /** `setPixel(x, y, type)`. */
  function SetPixel(g: Cells, x: int, y: int, t: TypeId): (r: Cells)
    ensures !InBounds(g, x, y) ==> r == g
    ensures InBounds(g, x, y) ==> OnlyAt(g, r, x, y) && r[y][x] == Retype(g[y][x], t)
    ensures SameFlags(g, r)
  {
    if InBounds(g, x, y) then Put(g, x, y, Retype(g[y][x], t)) else g
  }

  /** `swap(x1, y1, x2, y2)`: the two records trade places. */
  function Swap(g: Cells, x1: int, y1: int, x2: int, y2: int): (r: Cells)
    requires InBounds(g, x1, y1) && InBounds(g, x2, y2)
    ensures SameShape(g, r)
    ensures r[y1][x1] == g[y2][x2] && r[y2][x2] == g[y1][x1]
    ensures forall i, j :: 0 <= i < |g| && 0 <= j < |g[i]| && (i != y1 || j != x1) && (i != y2 || j != x2)
              ==> r[i][j] == g[i][j]
  {
    Put(Put(g, x1, y1, g[y2][x2]), x2, y2, g[y1][x1])
  }

  /**
   * A swap keeps the census: the same multiset of records, hence the same number of flagged ones.
   */
  lemma SwapCensus(g: Cells, x1: int, y1: int, x2: int, y2: int)
    requires InBounds(g, x1, y1) && InBounds(g, x2, y2)
    ensures Records(Swap(g, x1, y1, x2, y2)) == Records(g)
    ensures Flagged(Swap(g, x1, y1, x2, y2)) == Flagged(g)
  {
    var a, b := g[y1][x1], g[y2][x2];
    var h := Put(g, x1, y1, b);
    PutFlagged(g, x1, y1, b);
    PutRecords(g, x1, y1, b);
    assert h[y2][x2] == b;
    PutFlagged(h, x2, y2, a);
    PutRecords(h, x2, y2, a);
    Cancel(Records(Put(h, x2, y2, a)), Records(g), multiset{b});
  }

  /** `isEmpty(x, y)`: in bounds and AIR. */
  predicate IsEmptyAt(g: Cells, x: int, y: int) {
    InBounds(g, x, y) && IsEmpty(g[y][x])
  }

  /** The density test between two records: the target is not solid, and is AIR or strictly lighter. */
  predicate Displaces(p: Pixel, q: Pixel) {
    !IsSolid(q) && (IsEmpty(q) || MaterialAt(p).density > MaterialAt(q).density)
  }

  /** `canDisplace(x1, y1, x2, y2)`. */
  predicate CanDisplace(g: Cells, x1: int, y1: int, x2: int, y2: int) {
    InBounds(g, x1, y1) && InBounds(g, x2, y2) && Displaces(g[y1][x1], g[y2][x2])
  }

  // ------------------------------------------------------------- properties

  /** Two grids of the same shape that agree on every cell are equal. */
  lemma CellwiseEqual(g: Cells, r: Cells)
    requires SameShape(g, r)
    requires forall i, j :: 0 <= i < |g| && 0 <= j < |g[i]| ==> r[i][j] == g[i][j]
    ensures r == g
  {
    forall i | 0 <= i < |g|
      ensures r[i] == g[i]
    {
      assert |r[i]| == |g[i]|;
    }
  }

  /** Swapping the same two cells twice restores the grid. */
  lemma SwapTwice(g: Cells, x1: int, y1: int, x2: int, y2: int)
    requires InBounds(g, x1, y1) && InBounds(g, x2, y2)
    ensures Swap(Swap(g, x1, y1, x2, y2), x1, y1, x2, y2) == g
  {
    var h := Swap(g, x1, y1, x2, y2);
    var r := Swap(h, x1, y1, x2, y2);
    forall i, j | 0 <= i < |g| && 0 <= j < |g[i]|
      ensures r[i][j] == g[i][j]
    {
      if (i, j) != (y1, x1) && (i, j) != (y2, x2) {
        assert r[i][j] == h[i][j];
      }
    }
    CellwiseEqual(g, r);
  }

  /** Writing the same type twice is the same as writing it once; the last write wins. */
  lemma SetPixelLastWins(g: Cells, x: int, y: int, s: TypeId, t: TypeId)
    ensures SetPixel(SetPixel(g, x, y, s), x, y, t) == SetPixel(g, x, y, t)
  {
    if InBounds(g, x, y) {
      CellwiseEqual(SetPixel(g, x, y, t), SetPixel(SetPixel(g, x, y, s), x, y, t));
    }
  }

  /** `canDisplace` fails when either end is outside the grid or the target is solid. */
  lemma DisplaceNeedsRoom(g: Cells, x1: int, y1: int, x2: int, y2: int)
    requires CanDisplace(g, x1, y1, x2, y2)
    ensures Get(g, x1, y1).Some? && Get(g, x2, y2).Some? && !IsSolid(g[y2][x2])
    ensures !IsEmpty(g[y2][x2]) ==> MaterialAt(g[y1][x1]).density > MaterialAt(g[y2][x2]).density
  {
  }

  /** Equal densities never displace, unless the target is AIR. */
  lemma EqualDensityStays(p: Pixel, q: Pixel)
    requires !IsEmpty(q) && MaterialAt(p).density == MaterialAt(q).density
    ensures !Displaces(p, q)
  {
  }

  /** Two non-empty records never displace each other both ways. */
  lemma NoMutualDisplacement(p: Pixel, q: Pixel)
    requires !IsEmpty(p) && !IsEmpty(q)
    ensures !(Displaces(p, q) && Displaces(q, p))
  {
  }

  /**
   * Because ELECTRICITY's declared density 0 becomes 1, water (density 1) cannot fall into an
   * electricity cell, although it falls into AIR.
   */
  lemma WaterBlockedByElectricity(p: Pixel, q: Pixel)
    requires p.kind == WATER && q.kind == ELECTRICITY
    ensures !Displaces(p, q) && Declared(ELECTRICITY).density < MaterialAt(p).density
  {
    SearchFinds(p.kind, 0);
    SearchFinds(q.kind, 0);
  }

  /** Steam and smoke only ever displace gases: no liquid or powder is light enough. */
  lemma RisingGasDisplacesOnlyGas(p: Pixel, q: Pixel)
    requires p.kind == STEAM || p.kind == SMOKE
    requires Displaces(p, q)
    ensures IsGas(q)
  {
    FluidsAreDense(q.kind);
    SearchFinds(p.kind, 0);
  }
}
