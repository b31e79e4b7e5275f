/**
 * The frame of `PhysicsWorld.update(dt)` as functions on a grid value (src/physics.js:98-123):
 * every `updated` flag is cleared, then the cells are visited row by row from the bottom, left to
 * right on even frames and right to left on odd ones; a cell whose record is empty or already
 * flagged is skipped, any other runs `updatePixel` and its record is flagged wherever the rule
 * left it.
 */
module Scheduler {
  import opened Common
  import opened Materials
  import opened Grid
  import opened Movement
  import opened Chemistry

  /** A grid, the next unused draw, and how many times `updatePixel` ran. */
  datatype Pass = Pass(cells: Cells, used: nat, calls: nat)

  /** One iteration of the scan loop, at (x, y). */
  function Visit(g: Cells, x: int, y: int, dt: real, d: Draws, k: nat): (r: Pass)
    requires InBounds(g, x, y)
    ensures SameShape(g, r.cells) && r.calls <= 1
  {
    var p := g[y][x];
    if p.updated || IsEmpty(p) then Pass(g, k, 0)
    else
      var o := PixelStep(g, x, y, dt, d, k);
      var q := o.cells[o.y][o.x];
      Pass(Put(o.cells, o.x, o.y, q.(updated := true)), o.used, 1)
  }

  /** A visit flags one more record exactly when it runs `updatePixel`. */
  lemma VisitCensus(g: Cells, x: int, y: int, dt: real, d: Draws, k: nat)
    requires InBounds(g, x, y)
    ensures var r := Visit(g, x, y, dt, d, k);
      Flagged(r.cells) == Flagged(g) + r.calls
  {
    var p := g[y][x];
    if !(p.updated || IsEmpty(p)) {
      var o := PixelStep(g, x, y, dt, d, k);
      StepCensus(g, x, y, dt, d, k);
      VisitFlagsOne(g, x, y, dt, d, k);
      PutFlagged(o.cells, o.x, o.y, o.cells[o.y][o.x].(updated := true));
    }
  }

  /** The positions ps are all cells of g. */
  predicate Within(g: Cells, ps: seq<(int, int)>) {
    forall i :: 0 <= i < |ps| ==> InBounds(g, ps[i].0, ps[i].1)
  }

  /** The scan loop over the positions ps, in order. */
  function Visits(g: Cells, ps: seq<(int, int)>, dt: real, d: Draws, k: nat): (r: Pass)
    requires Within(g, ps)
    ensures SameShape(g, r.cells) && r.calls <= |ps|
    decreases |ps|
  {
    if ps == [] then Pass(g, k, 0)
    else
      var v := Visit(g, ps[0].0, ps[0].1, dt, d, k);
      assert Within(v.cells, ps[1..]) by {
        forall i | 0 <= i < |ps| - 1
          ensures InBounds(v.cells, ps[1..][i].0, ps[1..][i].1)
        {
          assert InBounds(g, ps[i + 1].0, ps[i + 1].1);
        }
      }
      var rest := Visits(v.cells, ps[1..], dt, d, v.used);
      Pass(rest.cells, rest.used, v.calls + rest.calls)
  }

  /** Row y in scan order: left to right when `forward`, right to left otherwise. */
  function RowOrder(w: nat, y: int, forward: bool): seq<(int, int)> {
    seq(w, i => (if forward then i else w - 1 - i, y))
  }

  /** The visiting order of a w-wide grid of h rows: row h - 1 first, up to row 0. */
  function Order(w: nat, h: nat, forward: bool): seq<(int, int)>
    decreases h
  {
    if h == 0 then [] else RowOrder(w, h - 1, forward) + Order(w, h - 1, forward)
  }

  /**
   * The outer scan loop: rows y - 1 down to 0, each scanned in the given direction from where the
   * row below left off.
   */
  function ScanRows(g: Cells, w: nat, y: nat, forward: bool, dt: real, d: Draws, k: nat): (r: Pass)
    requires Rect(g, w) && y <= |g|
    ensures SameShape(g, r.cells)
    decreases y
  {
    if y == 0 then Pass(g, k, 0)
    else
      RowWithin(g, w, y - 1, 0, forward);
      var r1 := Visits(g, RowOrder(w, y - 1, forward), dt, d, k);
      var r2 := ScanRows(r1.cells, w, y - 1, forward, dt, d, r1.used);
      Pass(r2.cells, r2.used, r1.calls + r2.calls)
  }

  /** Every record with its flag cleared: the first loop of `update`. */
  function ClearFlags(g: Cells): (r: Cells)
    ensures SameShape(g, r)
    ensures forall i, j :: 0 <= i < |g| && 0 <= j < |g[i]| ==> r[i][j] == g[i][j].(updated := false)
  {
    seq(|g|, i requires 0 <= i < |g| => seq(|g[i]|, j requires 0 <= j < |g[i]| => g[i][j].(updated := false)))
  }

  /**
   * `update(dt)` once `frameCount` has been incremented to `frame`: the flags cleared, then the
   * scan. The number of `updatePixel` calls equals the number of flagged records afterwards, so
   * no frame processes more records than the grid holds.
   */
  function Frame(g: Cells, w: nat, frame: int, dt: real, d: Draws, k: nat): (r: Pass)
    requires Rect(g, w)
    ensures SameShape(g, r.cells)
  {
    ScanRows(ClearFlags(g), w, |g|, frame % 2 == 0, dt, d, k)
  }

  // ------------------------------------------------------------- properties

  /** A grid whose records are all unflagged has a flag count of 0. */
  lemma {:induction false} NoFlags(g: Cells)
    requires forall i, j :: 0 <= i < |g| && 0 <= j < |g[i]| ==> !g[i][j].updated
    ensures Flagged(g) == 0
  {
    if g != [] {
      var n := |g|;
      NoFlags(g[..n - 1]);
      NoRowFlags(g[n - 1]);
    }
  }

  lemma {:induction false} NoRowFlags(row: seq<Pixel>)
    requires forall j :: 0 <= j < |row| ==> !row[j].updated
    ensures RowFlagged(row) == 0
  {
    if row != [] {
      NoRowFlags(row[..|row| - 1]);
    }
  }

  /** A scan flags one more record for each `updatePixel` call it makes. */
  lemma {:induction false} VisitsCensus(g: Cells, ps: seq<(int, int)>, dt: real, d: Draws, k: nat)
    requires Within(g, ps)
    ensures var r := Visits(g, ps, dt, d, k);
      Flagged(r.cells) == Flagged(g) + r.calls
    decreases |ps|
  {
    if ps != [] {
      var v := Visit(g, ps[0].0, ps[0].1, dt, d, k);
      VisitCensus(g, ps[0].0, ps[0].1, dt, d, k);
      VisitsStep(g, ps, dt, d, k);
      VisitsCensus(v.cells, ps[1..], dt, d, v.used);
    }
  }

  /**
   * After a frame the number of flagged records is the number of `updatePixel` calls, so no record
   * is processed twice and no frame makes more calls than the grid has cells.
   */
  lemma FrameCensus(g: Cells, w: nat, frame: int, dt: real, d: Draws, k: nat)
    requires Rect(g, w)
    ensures var r := Frame(g, w, frame, dt, d, k);
      r.calls == Flagged(r.cells) && r.calls <= w * |g|
  {
    var c := ClearFlags(g);
    NoFlags(c);
    OrderShape(w, |g|, frame % 2 == 0);
    ScanRowsIsVisits(c, w, |g|, frame % 2 == 0, dt, d, k);
    VisitsCensus(c, Order(w, |g|, frame % 2 == 0), dt, d, k);
  }

  /**
   * The scan order has one entry per cell of a w-by-h grid, every entry is a cell, and every cell
   * is an entry.
   */
  lemma {:induction false} OrderShape(w: nat, h: nat, forward: bool)
    ensures |Order(w, h, forward)| == w * h
    ensures forall i :: 0 <= i < w * h ==>
      0 <= Order(w, h, forward)[i].0 < w && 0 <= Order(w, h, forward)[i].1 < h
    ensures forall x, y :: 0 <= x < w && 0 <= y < h ==> (x, y) in Order(w, h, forward)
  {
    if h > 0 {
      OrderShape(w, h - 1, forward);
      var row, rest := RowOrder(w, h - 1, forward), Order(w, h - 1, forward);
      assert Order(w, h, forward) == row + rest;
      forall x, y | 0 <= x < w && 0 <= y < h
        ensures (x, y) in Order(w, h, forward)
      {
        if y == h - 1 {
          assert row[if forward then x else w - 1 - x] == (x, y);
        } else {
          assert (x, y) in rest;
        }
      }
    }
  }

  /** The scan order visits no cell twice, and visits rows from the bottom up. */
  lemma {:induction false} OrderVisitsOnce(w: nat, h: nat, forward: bool)
    ensures forall i, j :: 0 <= i < j < |Order(w, h, forward)| ==>
      Order(w, h, forward)[i] != Order(w, h, forward)[j] &&
      Order(w, h, forward)[i].1 >= Order(w, h, forward)[j].1
  {
    if h > 0 {
      OrderVisitsOnce(w, h - 1, forward);
      OrderShape(w, h - 1, forward);
      var row, rest := RowOrder(w, h - 1, forward), Order(w, h - 1, forward);
      var s := Order(w, h, forward);
      assert s == row + rest;
      forall i, j | 0 <= i < j < |s|
        ensures s[i] != s[j] && s[i].1 >= s[j].1
      {
        if j < w {
          assert s[i] == row[i] && s[j] == row[j];
        } else if i < w {
          assert s[i] == row[i] && s[j] == rest[j - w];
        } else {
          assert s[i] == rest[i - w] && s[j] == rest[j - w];
        }
      }
    }
  }

  /**
   * Within a row the scan moves one column at a time, rightwards when `forward` and leftwards
   * otherwise.
   */
  lemma {:induction false} OrderDirection(w: nat, h: nat, forward: bool)
    ensures forall i :: 0 <= i < |Order(w, h, forward)| - 1 ==>
      (Order(w, h, forward)[i].1 == Order(w, h, forward)[i + 1].1 ==>
       Order(w, h, forward)[i + 1].0 == Order(w, h, forward)[i].0 + (if forward then 1 else -1))
  {
    if h > 0 {
      OrderDirection(w, h - 1, forward);
      OrderShape(w, h - 1, forward);
      var row, rest := RowOrder(w, h - 1, forward), Order(w, h - 1, forward);
      var s := Order(w, h, forward);
      assert s == row + rest;
      forall i | 0 <= i < |s| - 1
        ensures s[i].1 == s[i + 1].1 ==> s[i + 1].0 == s[i].0 + (if forward then 1 else -1)
      {
        if i + 1 < w {
          assert s[i] == row[i] && s[i + 1] == row[i + 1];
        } else if i + 1 == w {
          assert s[i] == row[i] && s[i + 1] == rest[0];
        } else {
          assert s[i] == rest[i - w] && s[i + 1] == rest[i + 1 - w];
        }
      }
    }
  }

  /** The entries of row y from the i-th on are all cells of a w-wide grid with more than y rows. */
  lemma RowWithin(g: Cells, w: nat, y: int, i: nat, forward: bool)
    requires Rect(g, w) && 0 <= y < |g| && i <= w
    ensures Within(g, RowOrder(w, y, forward)) && Within(g, RowOrder(w, y, forward)[i..])
  {
  }

  /** The rows 0 .. h - 1 of the scan order are all cells of a w-wide grid with at least h rows. */
  lemma OrderWithin(g: Cells, w: nat, h: nat, forward: bool)
    requires Rect(g, w) && h <= |g|
    ensures Within(g, Order(w, h, forward))
  {
    OrderShape(w, h, forward);
  }

  /** Scanning ps is visiting its first position, then scanning the rest from there. */
  lemma VisitsStep(g: Cells, ps: seq<(int, int)>, dt: real, d: Draws, k: nat)
    requires Within(g, ps) && ps != []
    ensures var v := Visit(g, ps[0].0, ps[0].1, dt, d, k);
      Within(v.cells, ps[1..]) &&
      Visits(g, ps, dt, d, k).cells == Visits(v.cells, ps[1..], dt, d, v.used).cells &&
      Visits(g, ps, dt, d, k).used == Visits(v.cells, ps[1..], dt, d, v.used).used
  {
  }

  /** Scanning a + b is scanning a, then scanning b from where a left off. */
  lemma {:induction false} VisitsAppend(g: Cells, a: seq<(int, int)>, b: seq<(int, int)>, dt: real, d: Draws, k: nat)
    requires Within(g, a) && Within(g, b)
    ensures Within(g, a + b)
    ensures var r1 := Visits(g, a, dt, d, k);
      Within(r1.cells, b) &&
      var r2 := Visits(r1.cells, b, dt, d, r1.used);
      Visits(g, a + b, dt, d, k) == Pass(r2.cells, r2.used, r1.calls + r2.calls)
    decreases |a|
  {
    assert Within(g, a + b) by {
      forall i | 0 <= i < |a + b|
        ensures InBounds(g, (a + b)[i].0, (a + b)[i].1)
      {
        if i >= |a| {
          assert (a + b)[i] == b[i - |a|];
        }
      }
    }
    var r1 := Visits(g, a, dt, d, k);
    assert Within(r1.cells, b) by {
      forall i | 0 <= i < |b|
        ensures InBounds(r1.cells, b[i].0, b[i].1)
      {
        assert InBounds(g, b[i].0, b[i].1);
      }
    }
    if a == [] {
      assert a + b == b;
    } else {
      var v := Visit(g, a[0].0, a[0].1, dt, d, k);
      assert (a + b)[0] == a[0] && (a + b)[1..] == a[1..] + b;
      assert Within(v.cells, a[1..]) && Within(v.cells, b) by {
        forall i | 0 <= i < |a| - 1
          ensures InBounds(v.cells, a[1..][i].0, a[1..][i].1)
        {
          assert InBounds(g, a[i + 1].0, a[i + 1].1);
        }
        forall i | 0 <= i < |b|
          ensures InBounds(v.cells, b[i].0, b[i].1)
        {
          assert InBounds(g, b[i].0, b[i].1);
        }
      }
      VisitsAppend(v.cells, a[1..], b, dt, d, v.used);
    }
  }

  /**
   * h and draw u are what scanning rows y - 1 .. 0 of g from draw k leaves: the form the scan
   * loop of `update` maintains row by row.
   */
  ghost predicate Scanned(g: Cells, h: Cells, w: nat, y: nat, forward: bool, dt: real, d: Draws, k: nat, u: nat)
    requires Rect(g, w) && y <= |g|
  {
    var r := ScanRows(g, w, y, forward, dt, d, k);
    h == r.cells && u == r.used
  }

  /** Scanning rows y - 1 .. 0 goes on from what scanning row y - 1 left. */
  lemma ScannedStep(g: Cells, h: Cells, w: nat, y: nat, forward: bool, dt: real, d: Draws, k: nat, u: nat, g1: Cells, k1: nat)
    requires Rect(g, w) && 0 < y <= |g| && Within(g, RowOrder(w, y - 1, forward))
    requires Scanned(g, h, w, y, forward, dt, d, k, u)
    requires g1 == Visits(g, RowOrder(w, y - 1, forward), dt, d, k).cells
    requires k1 == Visits(g, RowOrder(w, y - 1, forward), dt, d, k).used
    ensures Rect(g1, w) && |g1| == |g|
    ensures Scanned(g1, h, w, y - 1, forward, dt, d, k1, u)
  {
  }

  /** The row-by-row scan visits exactly the positions of the scan order, in that order. */
  lemma {:induction false} ScanRowsIsVisits(g: Cells, w: nat, y: nat, forward: bool, dt: real, d: Draws, k: nat)
    requires Rect(g, w) && y <= |g|
    ensures Within(g, Order(w, y, forward))
    ensures ScanRows(g, w, y, forward, dt, d, k) == Visits(g, Order(w, y, forward), dt, d, k)
    decreases y
  {
    OrderWithin(g, w, y, forward);
    if y > 0 {
      RowWithin(g, w, y - 1, 0, forward);
      OrderWithin(g, w, y - 1, forward);
      var r1 := Visits(g, RowOrder(w, y - 1, forward), dt, d, k);
      VisitsAppend(g, RowOrder(w, y - 1, forward), Order(w, y - 1, forward), dt, d, k);
      ScanRowsIsVisits(r1.cells, w, y - 1, forward, dt, d, r1.used);
    }
  }

  /** A flagged or empty cell is skipped: nothing changes and no draw is used. */
  lemma VisitSkips(g: Cells, x: int, y: int, dt: real, d: Draws, k: nat)
    requires InBounds(g, x, y) && (g[y][x].updated || IsEmpty(g[y][x]))
    ensures Visit(g, x, y, dt, d, k) == Pass(g, k, 0)
  {
  }

  /**
   * A visited cell runs `updatePixel` once and flags exactly one record that was not flagged
   * before: the one processed, wherever the rule moved it.
   */
  lemma VisitFlagsOne(g: Cells, x: int, y: int, dt: real, d: Draws, k: nat)
    requires InBounds(g, x, y) && !g[y][x].updated && !IsEmpty(g[y][x])
    ensures var r := Visit(g, x, y, dt, d, k);
      var o := PixelStep(g, x, y, dt, d, k);
      r.calls == 1 && r.used == o.used &&
      OnlyAt(o.cells, r.cells, o.x, o.y) && !o.cells[o.y][o.x].updated &&
      r.cells[o.y][o.x] == o.cells[o.y][o.x].(updated := true)
  {
  }
}
