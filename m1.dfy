/** Lattice family M1: a strip of four Points tiled along x (row 1), followed by its
    reflection read backwards (row 2), repeated over `2 * units_y - 1` rows by a loop that shifts odd
    rows by the row offset in x. */
module FamilyM1 {
  import opened Geometry
  import opened Units
  import opened Tables
  import opened Rows

  /** M1 angles use alpha only: no deviation angle. */
  function PenOf(alpha: real, seg: real): Pen { Pen(seg, 0.0, alpha) }

  /** All four entries of the unit are Points with x and y. */
  predicate Shaped(u: seq<Entry>)
  {
    |u| == 4 && HasXY(u, 0) && HasXY(u, 1) && HasXY(u, 2) && HasXY(u, 3)
  }

  lemma UnitShape(lib: Lib, pen: Pen)
    ensures Shaped(Chain(lib, pen, Origin, M1Steps))
  {
    assert M1Steps[0].Strut? && M1Steps[1].Strut? && M1Steps[2].Strut?;
    ChainPointXY(lib, pen, Origin, M1Steps, 1);
    ChainPointXY(lib, pen, Origin, M1Steps, 2);
    ChainPointXY(lib, pen, Origin, M1Steps, 3);
  }

  /** The M1 unit: four Points from the origin. */
  function Unit(lib: Lib, alpha: real, seg: real): (u: seq<Entry>)
    ensures Shaped(u) && u[0] == P(Origin)
  {
    UnitShape(lib, PenOf(alpha, seg));
    Chain(lib, PenOf(alpha, seg), Origin, M1Steps)
  }

  function ReadOffsets(u: seq<Entry>): Offsets
    requires Shaped(u)
  {
    Offsets(X(u[3]), -(X(u[2]) - X(u[1])), -(Y(u[1]) + Y(u[2])))
  }

  /** Row 1 (the unit tiled `ux` times) followed by row 2, its reflection read from the
      end of row 1 back to its start. */
  function Strip(lib: Lib, u: seq<Entry>, ux: int): seq<Entry>
    requires Shaped(u)
  {
    var row1 := Row(u, ReadOffsets(u).repeatX, ux);
    row1 + ReflectList(lib.reflect, row1)
  }

  /** The displacement of strip copy `i`: the row offset in x on odd copies, `i` row
      heights in y, z left alone. */
  function ShiftAt(o: Offsets, i: int): Vector
  {
    Vector(At(if i % 2 == 1 then o.rowX else 0.0), At(o.rowY * i as real), Absent)
  }

  function Shift(o: Offsets): int -> Vector
  {
    i => ShiftAt(o, i)
  }

  function LatticeOf(lib: Lib, u: seq<Entry>, ux: int, uy: int): Lattice
    requires Shaped(u)
  {
    var o := ReadOffsets(u);
    Lattice(Copies(Strip(lib, u, ux), 2 * uy - 1, Shift(o)), o.repeatX)
  }

  /** The M1 lattice of one layer. */
  function Generate(lib: Lib, alpha: real, seg: real, ux: int, uy: int): Lattice
  {
    LatticeOf(lib, Unit(lib, alpha, seg), ux, uy)
  }

  /** The row loop: for `i` in `range(rows)`, the strip moved by `ShiftAt(o, i)` is
      appended to the lattice. */
  method RowLoop(strip: seq<Entry>, o: Offsets, rows: int) returns (lattice: seq<Entry>)
    ensures lattice == Copies(strip, rows, Shift(o))
  {
    lattice := [];
    var i := 0;
    while i < rows
      invariant 0 <= i <= if rows > 0 then rows else 0
      invariant lattice == Copies(strip, i, Shift(o))
    {
      var shift := ShiftAt(o, i);
      assert Shift(o)(i) == shift;
      lattice := lattice + Move(strip, shift);
      i := i + 1;
    }
  }

  /** The M1 branch of the script, statement by statement. */
  method Build(lib: Lib, alpha: real, seg: real, ux: int, uy: int) returns (l: Lattice)
    ensures l == Generate(lib, alpha, seg, ux, uy)
  {
    M1Reads();
    var unit := BuildUnit(lib, PenOf(alpha, seg), Origin, M1Steps);
    UnitShape(lib, PenOf(alpha, seg));
    var o := ReadOffsets(unit);
    var row1 := Row(unit, o.repeatX, ux);
    var row2 := ReflectList(lib.reflect, row1);
    var lattice := RowLoop(row1 + row2, o, 2 * uy - 1);
    l := Lattice(lattice, o.repeatX);
  }

  /** Tile `i` of row 1 is the unit moved `i` repeat offsets along x; row 2 holds its
      reflection at the mirrored position, counted back from the end of the strip. */
  lemma StripAt(lib: Lib, u: seq<Entry>, ux: int, i: int, k: int)
    requires Shaped(u) && 0 <= i < ux && 0 <= k < 4
    ensures var s := Strip(lib, u, ux);
      |s| == 8 * ux &&
      s[4 * i + k] == MoveEntry(u[k], VX(X(u[3]) * i as real)) &&
      s[8 * ux - 1 - (4 * i + k)] == P(lib.reflect(s[4 * i + k].p))
  {
    var row1 := Row(u, X(u[3]), ux);
    RowAt(u, X(u[3]), ux, i, k);
    assert i * 4 + k == 4 * i + k;
    var j := 4 * ux - 1 - (4 * i + k);
    assert Strip(lib, u, ux)[4 * ux + j] == ReflectList(lib.reflect, row1)[j];
    assert |row1| - 1 - j == 4 * i + k;
  }

  /** Row 2 begins at the reflection of the Point where row 1 ends, and ends at the
      reflection of the Point where row 1 begins. */
  lemma RowTurn(lib: Lib, u: seq<Entry>, ux: int)
    requires Shaped(u) && ux >= 1
    ensures var s := Strip(lib, u, ux);
      |s| == 8 * ux && s[0].P? && s[4 * ux - 1].P? &&
      s[4 * ux] == P(lib.reflect(s[4 * ux - 1].p)) && s[8 * ux - 1] == P(lib.reflect(s[0].p))
  {
    StripAt(lib, u, ux, ux - 1, 3);
    StripAt(lib, u, ux, 0, 0);
  }

  /** The lattice is `2 * uy - 1` copies of the strip; copy `i` is moved by the row offset
      in x when `i` is odd and by `i` row heights in y. */
  lemma LatticeAt(lib: Lib, u: seq<Entry>, ux: int, uy: int, i: int, k: int)
    requires Shaped(u) && 0 <= i < 2 * uy - 1 && 0 <= k < 8 * ux
    ensures var s := Strip(lib, u, ux);
      var l := LatticeOf(lib, u, ux, uy).steps;
      |s| == 8 * ux && |l| == (2 * uy - 1) * |s| && 0 <= i * |s| && i * |s| + k < |l| &&
      l[i * |s| + k] == MoveEntry(s[k], ShiftAt(ReadOffsets(u), i))
  {
    var o := ReadOffsets(u);
    var s := Strip(lib, u, ux);
    CopiesAt(s, 2 * uy - 1, Shift(o), i, k);
    assert Shift(o)(i) == ShiftAt(o, i);
  }

  /** The repeat offset is chosen so that consecutive tiles of row 1 meet in x: tile `i`
      ends (Point 3) at the x where tile `i + 1` starts. Only x is compared; this checks the
      offset choice, not the y of the joint. */
  lemma TilesAbut(u: seq<Entry>, ux: int, i: int)
    requires Shaped(u) && u[0] == P(Origin) && 0 <= i && i + 1 < ux
    ensures var row := Row(u, ReadOffsets(u).repeatX, ux);
      HasXY(row, 4 * i + 3) && HasXY(row, 4 * i + 4) && X(row[4 * i + 3]) == X(row[4 * i + 4])
  {
    RowTilesAbut(u, 3, X(u[3]), ux, i);
    assert i * 4 + 3 == 4 * i + 3 && (i + 1) * 4 == 4 * i + 4;
  }

  /** The M1 unit has no markers: every move of it prints. */
  lemma UnitMarkers(lib: Lib, alpha: real, seg: real)
    ensures Toggles(Unit(lib, alpha, seg)) == []
  {
    M1Alternates();
    ChainAlternates(lib, PenOf(alpha, seg), Origin, M1Steps);
    TogglesNone(Unit(lib, alpha, seg));
  }

  /** A lattice built from a unit of four Points has no markers: the reflection brings
      none in, and neither do the copies. */
  lemma LatticeMarkers(lib: Lib, u: seq<Entry>, ux: int, uy: int)
    requires Shaped(u)
    ensures Toggles(LatticeOf(lib, u, ux, uy).steps) == []
  {
    var o := ReadOffsets(u);
    var row1 := Row(u, o.repeatX, ux);
    var row2 := ReflectList(lib.reflect, row1);
    TogglesNone(u);
    TogglesCopiesNone(u, ux, i => Scale(VX(o.repeatX), i));
    TogglesNone(row1);
    TogglesNone(row2);
    TogglesAppend(row1, row2);
    TogglesCopiesNone(row1 + row2, 2 * uy - 1, Shift(o));
  }

  /** The M1 lattice has no markers, so they trivially alternate. */
  lemma GenerateMarkers(lib: Lib, alpha: real, seg: real, ux: int, uy: int)
    ensures Toggles(Generate(lib, alpha, seg, ux, uy).steps) == []
    ensures Alternates(Toggles(Generate(lib, alpha, seg, ux, uy).steps))
  {
    LatticeMarkers(lib, Unit(lib, alpha, seg), ux, uy);
  }

  /** Row 1 has `ux` tiles of four Points and row 2 as many, so the lattice of
      `2 * uy - 1` strips has `8 * ux` entries per strip (none for no tiles or rows). */
  lemma GenerateLength(lib: Lib, alpha: real, seg: real, ux: int, uy: int)
    ensures var tiles := if ux <= 0 then 0 else ux;
      var rows := if uy <= 0 then 0 else 2 * uy - 1;
      |Generate(lib, alpha, seg, ux, uy).steps| == rows * (8 * tiles)
  {
    var u := Unit(lib, alpha, seg);
    var o := ReadOffsets(u);
    var tiles := if ux <= 0 then 0 else ux;
    var row1 := Row(u, o.repeatX, ux);
    assert |row1| == 4 * tiles;
    var strip := Strip(lib, u, ux);
    assert |strip| == 8 * tiles;
    assert Generate(lib, alpha, seg, ux, uy).steps == Copies(strip, 2 * uy - 1, Shift(o));
  }
}
