/** Lattice family M2: a 21-entry unit of printed struts and travel hops tiled along x
    (row 1), a separately built return unit tiled back along x (row 2), and the row pair
    stacked `units_y` times. */
module FamilyM2 {
  import opened Geometry
  import opened Units
  import opened Tables
  import opened Rows

  /** M2 angles add the M2 deviation angle, a function of alpha. */
  function PenOf(lib: Lib, alpha: real, seg: real): Pen { Pen(seg, lib.devM2(alpha), alpha) }

  /** 21 entries, and the entries the offsets and the row-2 start read are Points. */
  predicate Shaped(u: seq<Entry>)
  {
    |u| == 21 && HasXY(u, 0) && HasXY(u, 1) && HasXY(u, 3) && HasXY(u, 8) && HasXY(u, 9) &&
    HasXY(u, 16) && HasXY(u, 19)
  }

  lemma UnitShape(lib: Lib, pen: Pen)
    ensures Shaped(Chain(lib, pen, Origin, M2Steps))
  {
    M2Points();
    ChainPointXY(lib, pen, Origin, M2Steps, 1);
    ChainPointXY(lib, pen, Origin, M2Steps, 3);
    ChainPointXY(lib, pen, Origin, M2Steps, 8);
    ChainPointXY(lib, pen, Origin, M2Steps, 9);
    ChainPointXY(lib, pen, Origin, M2Steps, 16);
    ChainPointXY(lib, pen, Origin, M2Steps, 19);
  }

  /** The M2 unit of row 1, from the origin. */
  function Unit(lib: Lib, alpha: real, seg: real): (u: seq<Entry>)
    ensures Shaped(u) && u[0] == P(Origin)
  {
    UnitShape(lib, PenOf(lib, alpha, seg));
    Chain(lib, PenOf(lib, alpha, seg), Origin, M2Steps)
  }

  function ReadOffsets(u: seq<Entry>): Offsets
    requires Shaped(u)
  {
    Offsets(X(u[19]), X(u[16]) - X(u[8]), Y(u[3]) - Y(u[9]))
  }

  /** Row 2 starts from the unit's second Point, moved past the `ux` tiles of row 1 and by
      the row offsets; it has x and y and no z. */
  function BackStart(u: seq<Entry>, ux: int): (p: Point)
    requires Shaped(u)
    ensures XY(p) && p.z.Absent?
  {
    var o := ReadOffsets(u);
    Point(At(X(u[1]) + ux as real * o.repeatX + o.rowX), At(Y(u[1]) + o.rowY), Absent)
  }

  /** Row 2 starts where Point 1 of the tile after the last one of row 1 would be, moved
      by the row offsets: `row_offset_x` along x and one row height `row_offset_y` up. */
  lemma BackStartAfterRow(u: seq<Entry>, ux: int)
    requires Shaped(u) && ux >= 0
    ensures var o := ReadOffsets(u);
      var next := Row(u, o.repeatX, ux + 1);
      var p := BackStart(u, ux);
      HasXY(next, 21 * ux + 1) &&
      p.x.value == X(next[21 * ux + 1]) + o.rowX && p.y.value == Y(next[21 * ux + 1]) + o.rowY
  {
    var o := ReadOffsets(u);
    RowAt(u, o.repeatX, ux + 1, ux, 1);
    assert ux * 21 + 1 == 21 * ux + 1;
    assert o.repeatX * ux as real == ux as real * o.repeatX;
  }

  /** The return unit of row 2. */
  function Back(lib: Lib, alpha: real, seg: real, u: seq<Entry>, ux: int): (b: seq<Entry>)
    requires Shaped(u)
    ensures |b| == 21 && b[0] == P(BackStart(u, ux))
  {
    Chain(lib, PenOf(lib, alpha, seg), BackStart(u, ux), M2BackSteps)
  }

  /** The return unit starts at a Point without z, and every strut keeps the height of the
      Point it starts from, so no Point of the return unit has a z. */
  lemma BackHasNoZ(lib: Lib, alpha: real, seg: real, u: seq<Entry>, ux: int)
    requires Shaped(u)
    ensures var b := Back(lib, alpha, seg, u, ux);
      forall j :: 0 <= j < |b| && b[j].P? ==> b[j].p.z.Absent?
  {
    ChainKinds(lib, PenOf(lib, alpha, seg), BackStart(u, ux), M2BackSteps);
  }

  /** The M2 lattice of one layer. */
  function Generate(lib: Lib, alpha: real, seg: real, ux: int, uy: int): Lattice
  {
    var u := Unit(lib, alpha, seg);
    PairLattice(u, Back(lib, alpha, seg, u, ux), ReadOffsets(u), ux, ux, uy)
  }

  /** The two unit-building passes of the M2 branch: row 1's unit from the origin, then
      the return unit from the start its offsets give. */
  method BuildUnits(lib: Lib, alpha: real, seg: real, ux: int) returns (unit: seq<Entry>, back: seq<Entry>)
    ensures unit == Unit(lib, alpha, seg) && back == Back(lib, alpha, seg, unit, ux)
  {
    var pen := PenOf(lib, alpha, seg);
    M2Reads();
    unit := BuildUnit(lib, pen, Origin, M2Steps);
    UnitShape(lib, pen);
    M2BackReads();
    back := BuildUnit(lib, pen, BackStart(unit, ux), M2BackSteps);
  }

  /** The M2 branch of the script: build both units, then tile and stack them. */
  method Build(lib: Lib, alpha: real, seg: real, ux: int, uy: int) returns (l: Lattice)
    ensures l == Generate(lib, alpha, seg, ux, uy)
  {
    var unit, back := BuildUnits(lib, alpha, seg, ux);
    l := PairLattice(unit, back, ReadOffsets(unit), ux, ux, uy);
  }

  /** With the offsets `o` read from the unit, the row pair is `42 * ux` entries and the
      lattice `uy` copies of it, copy `i` raised by `2 * i` row heights. */
  lemma LatticeAt(u: seq<Entry>, back: seq<Entry>, o: Offsets, ux: int, uy: int, i: int, k: int)
    requires |u| == 21 && |back| == 21 && 0 <= ux && 0 <= i < uy
    ensures var pair := Row(u, o.repeatX, ux) + Row(back, -o.repeatX, ux);
      var l := PairLattice(u, back, o, ux, ux, uy).steps;
      |pair| == 42 * ux && |l| == uy * |pair| &&
      (0 <= k < |pair| ==>
        0 <= i * |pair| && i * |pair| + k < |l| && l[i * |pair| + k] == MoveEntry(pair[k], VY(2.0 * o.rowY * i as real)))
  {
    PairAt(u, back, o, ux, ux, uy, i, k);
    assert ux * 21 + ux * 21 == 42 * ux;
  }

  /** The repeat offset is chosen so that consecutive tiles of row 1 meet in x: tile `i`
      ends (Point 19) at the x where tile `i + 1` starts. Only x is compared; this checks
      the offset choice, not the y of the joint. */
  lemma TilesAbut(u: seq<Entry>, ux: int, i: int)
    requires Shaped(u) && u[0] == P(Origin) && 0 <= i && i + 1 < ux
    ensures var row := Row(u, ReadOffsets(u).repeatX, ux);
      HasXY(row, 21 * i + 19) && HasXY(row, 21 * i + 21) && X(row[21 * i + 19]) == X(row[21 * i + 21])
  {
    RowTilesAbut(u, 19, X(u[19]), ux, i);
    assert i * 21 + 19 == 21 * i + 19 && (i + 1) * 21 == 21 * i + 21;
  }

  lemma UnitMarkers(lib: Lib, alpha: real, seg: real, ux: int)
    ensures var u := Unit(lib, alpha, seg);
      Alternates(Toggles(u)) && Alternates(Toggles(Back(lib, alpha, seg, u, ux)))
  {
    var u := Unit(lib, alpha, seg);
    M2Alternates();
    ChainAlternates(lib, PenOf(lib, alpha, seg), Origin, M2Steps);
    M2BackAlternates();
    ChainAlternates(lib, PenOf(lib, alpha, seg), BackStart(u, ux), M2BackSteps);
  }

  /** The M2 lattice has alternating markers: travel off, print on, ending on. */
  lemma GenerateMarkers(lib: Lib, alpha: real, seg: real, ux: int, uy: int)
    ensures Alternates(Toggles(Generate(lib, alpha, seg, ux, uy).steps))
  {
    var u := Unit(lib, alpha, seg);
    UnitMarkers(lib, alpha, seg, ux);
    PairLatticeAlternates(u, Back(lib, alpha, seg, u, ux), ReadOffsets(u), ux, ux, uy);
  }
}
