/** Lattice family M4: a 13-step unit tiled along x (row 1), a return unit drawn from a
    start read off the end of row 1 and tiled back along x (row 2), and the row pair
    stacked often enough to cover `units_y` rows, rounded up to an even count. */
module FamilyM4 {
  import opened Geometry
  import opened Units
  import opened Tables
  import opened Rows

  /** An alpha of 150 is built as 120. */
  function NormalAlpha(alpha: real): (a: real)
    ensures a == 120.0 <==> alpha == 150.0 || alpha == 120.0
    ensures alpha != 150.0 ==> a == alpha
  {
    if alpha == 150.0 then 120.0 else alpha
  }

  /** M4 angles subtract the M4 deviation angle, a function of alpha. */
  function PenOf(lib: Lib, alpha: real, seg: real): Pen { Pen(seg, lib.devM4(alpha), alpha) }

  /** The number of row pairs: `units_y` made even by adding one if it is odd, halved. */
  function RowPairs(uy: int): int
  {
    (if uy % 2 != 0 then uy + 1 else uy) / 2
  }

  /** 14 entries, and the entries the offsets and the row-2 start read are Points. */
  predicate Shaped(u: seq<Entry>)
  {
    |u| == 14 && HasXY(u, 0) && HasXY(u, 1) && HasXY(u, 3) && HasXY(u, 5) && HasXY(u, 7) &&
    HasXY(u, 8) && HasXY(u, 12)
  }

  lemma UnitShape(lib: Lib, pen: Pen)
    ensures Shaped(Chain(lib, pen, Origin, M4Steps))
  {
    M4Points();
    ChainPointXY(lib, pen, Origin, M4Steps, 1);
    ChainPointXY(lib, pen, Origin, M4Steps, 3);
    ChainPointXY(lib, pen, Origin, M4Steps, 5);
    ChainPointXY(lib, pen, Origin, M4Steps, 7);
    ChainPointXY(lib, pen, Origin, M4Steps, 8);
    ChainPointXY(lib, pen, Origin, M4Steps, 12);
  }

  /** The M4 unit of row 1, from the origin. */
  function Unit(lib: Lib, alpha: real, seg: real): (u: seq<Entry>)
    ensures Shaped(u) && u[0] == P(Origin)
  {
    UnitShape(lib, PenOf(lib, alpha, seg));
    Chain(lib, PenOf(lib, alpha, seg), Origin, M4Steps)
  }

  function ReadOffsets(u: seq<Entry>): Offsets
    requires Shaped(u)
  {
    Offsets(X(u[12]) - X(u[0]), X(u[1]) - X(u[0]), Y(u[3]) - Y(u[8]))
  }

  /** Row 2 starts at the x of the last-but-one entry of row 1 plus the x step from Point 0
      to Point 1, and one row up less the y correction read from Points 5, 7 and 8; it has
      no z. Row 1 has a last-but-one entry only when it has a tile. */
  function BackStart(u: seq<Entry>, ux: int): (p: Point)
    requires Shaped(u) && ux >= 1
    ensures XY(p) && p.z.Absent?
  {
    var o := ReadOffsets(u);
    var row1 := Row(u, o.repeatX, ux);
    RowAt(u, o.repeatX, ux, ux - 1, 12);
    assert (ux - 1) * 14 + 12 == |row1| - 2;
    Point(At(X(row1[|row1| - 2]) + o.rowX), At(o.rowY - (Y(u[7]) - Y(u[8]) - (Y(u[5]) - Y(u[7])))), Absent)
  }

  /** The return unit of row 2. */
  function Back(lib: Lib, alpha: real, seg: real, u: seq<Entry>, ux: int): (b: seq<Entry>)
    requires Shaped(u) && ux >= 1
    ensures |b| == 14 && b[0] == P(BackStart(u, ux))
  {
    Chain(lib, PenOf(lib, alpha, seg), BackStart(u, ux), M4BackSteps)
  }

  /** The return unit starts at a Point without z, and every strut keeps the height of the
      Point it starts from, so no Point of the return unit has a z. */
  lemma BackHasNoZ(lib: Lib, alpha: real, seg: real, u: seq<Entry>, ux: int)
    requires Shaped(u) && ux >= 1
    ensures var b := Back(lib, alpha, seg, u, ux);
      forall j :: 0 <= j < |b| && b[j].P? ==> b[j].p.z.Absent?
  {
    ChainKinds(lib, PenOf(lib, alpha, seg), BackStart(u, ux), M4BackSteps);
  }

  /** The M4 lattice of one layer, or `None` where row 1 is too short to read its
      last-but-one entry (no tiles). */
  function Generate(lib: Lib, alpha: real, seg: real, ux: int, uy: int): Option<Lattice>
  {
    var a := NormalAlpha(alpha);
    var u := Unit(lib, a, seg);
    if ux < 1 then None else Some(PairLattice(u, Back(lib, a, seg, u, ux), ReadOffsets(u), ux, ux, RowPairs(uy)))
  }

  /** The two unit-building passes of the M4 branch. */
  method BuildUnits(lib: Lib, alpha: real, seg: real, ux: int) returns (unit: seq<Entry>, back: seq<Entry>)
    requires ux >= 1
    ensures unit == Unit(lib, alpha, seg) && back == Back(lib, alpha, seg, unit, ux)
  {
    var pen := PenOf(lib, alpha, seg);
    M4Reads();
    unit := BuildUnit(lib, pen, Origin, M4Steps);
    UnitShape(lib, pen);
    M4BackReads();
    back := BuildUnit(lib, pen, BackStart(unit, ux), M4BackSteps);
  }

  /** The M4 branch of the script: alpha and `units_y` are normalised in place, the units
      are built and tiled, and the row pairs stacked. */
  method Build(lib: Lib, alpha: real, seg: real, ux: int, uy: int) returns (l: Option<Lattice>)
    ensures l == Generate(lib, alpha, seg, ux, uy)
    ensures l.None? <==> ux < 1
  {
    var a := alpha;
    if a == 150.0 {
      a := 120.0;
    }
    if ux < 1 {
      return None;
    }
    assert a == NormalAlpha(alpha);
    var unit, back := BuildUnits(lib, a, seg, ux);
    var unitsY := uy;
    if unitsY % 2 != 0 {
      unitsY := unitsY + 1;
    }
    var rowPairs := unitsY / 2;
    assert rowPairs == RowPairs(uy);
    l := Some(PairLattice(unit, back, ReadOffsets(unit), ux, ux, rowPairs));
  }

  /** An alpha of 150 gives exactly the lattice of 120. */
  lemma AlphaAlias(lib: Lib, seg: real, ux: int, uy: int)
    ensures Generate(lib, 150.0, seg, ux, uy) == Generate(lib, 120.0, seg, ux, uy)
  {
    assert NormalAlpha(150.0) == NormalAlpha(120.0);
  }

  /** The row pairs cover `units_y` rows with at most one row to spare (there is at least
      one pair when `units_y` is positive), and their rows number exactly `units_y` when it
      is even. */
  lemma RowPairsCover(uy: int)
    requires uy >= 0
    ensures RowPairs(uy) >= 0 && uy <= 2 * RowPairs(uy) <= uy + 1
    ensures uy >= 1 ==> RowPairs(uy) >= 1
    ensures uy % 2 == 0 ==> 2 * RowPairs(uy) == uy
  {
  }

  /** Row 2 starts one repeat offset past row 1's last tile, at Point 1's x. */
  lemma BackStartX(u: seq<Entry>, ux: int)
    requires Shaped(u) && u[0] == P(Origin) && ux >= 1
    ensures BackStart(u, ux).x.value == ux as real * ReadOffsets(u).repeatX + X(u[1])
  {
    var o := ReadOffsets(u);
    RowAt(u, o.repeatX, ux, ux - 1, 12);
    assert (ux - 1) * 14 + 12 == 14 * ux - 2;
    assert X(u[0]) == 0.0;
    assert X(u[12]) + o.repeatX * (ux - 1) as real == o.repeatX * ux as real;
  }

  /** With the offsets `o` read from the unit, the row pair is `28 * ux` entries and the
      lattice `pairs` copies of it, copy `i` raised by `2 * i` row heights. */
  lemma LatticeAt(u: seq<Entry>, back: seq<Entry>, o: Offsets, ux: int, pairs: int, i: int, k: int)
    requires |u| == 14 && |back| == 14 && 0 <= ux && 0 <= i < pairs
    ensures var pair := Row(u, o.repeatX, ux) + Row(back, -o.repeatX, ux);
      var l := PairLattice(u, back, o, ux, ux, pairs).steps;
      |pair| == 28 * ux && |l| == pairs * |pair| &&
      (0 <= k < |pair| ==>
        0 <= i * |pair| && i * |pair| + k < |l| && l[i * |pair| + k] == MoveEntry(pair[k], VY(2.0 * o.rowY * i as real)))
  {
    PairAt(u, back, o, ux, ux, pairs, i, k);
    assert ux * 14 + ux * 14 == 28 * ux;
  }

  /** The repeat offset is chosen so that consecutive tiles of row 1 meet in x: tile `i`
      ends (Point 12) at the x where tile `i + 1` starts. Only x is compared; this checks
      the offset choice, not the y of the joint. */
  lemma TilesAbut(u: seq<Entry>, ux: int, i: int)
    requires Shaped(u) && 0 <= i && i + 1 < ux
    ensures var row := Row(u, ReadOffsets(u).repeatX, ux);
      HasXY(row, 14 * i + 12) && HasXY(row, 14 * i + 14) && X(row[14 * i + 12]) == X(row[14 * i + 14])
  {
    RowTilesAbut(u, 12, ReadOffsets(u).repeatX, ux, i);
    assert i * 14 + 12 == 14 * i + 12 && (i + 1) * 14 == 14 * i + 14;
  }

  lemma UnitMarkers(lib: Lib, alpha: real, seg: real, ux: int)
    requires ux >= 1
    ensures var u := Unit(lib, alpha, seg);
      Alternates(Toggles(u)) && Alternates(Toggles(Back(lib, alpha, seg, u, ux)))
  {
    var u := Unit(lib, alpha, seg);
    M4Alternates();
    ChainAlternates(lib, PenOf(lib, alpha, seg), Origin, M4Steps);
    M4BackAlternates();
    ChainAlternates(lib, PenOf(lib, alpha, seg), BackStart(u, ux), M4BackSteps);
  }

  /** Where the M4 lattice exists, it has alternating markers: travel off, print on,
      ending on. */
  lemma GenerateMarkers(lib: Lib, alpha: real, seg: real, ux: int, uy: int)
    requires Generate(lib, alpha, seg, ux, uy).Some?
    ensures Alternates(Toggles(Generate(lib, alpha, seg, ux, uy).value.steps))
  {
    var a := NormalAlpha(alpha);
    var u := Unit(lib, a, seg);
    UnitMarkers(lib, a, seg, ux);
    PairLatticeAlternates(u, Back(lib, a, seg, u, ux), ReadOffsets(u), ux, ux, RowPairs(uy));
  }
}
