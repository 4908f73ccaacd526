/** What the four lattice families share once a unit is built: the offsets read from it,
    the row made by tiling it along x (`fc.move` with copies), the stack of row pairs
    made by copying along y, and the lattice of one layer with the repeat offset the
    closing lines need. */
module Rows {
  import opened Geometry

  /** Offsets read from a unit: `repeatX` between the tiles of a row, `rowX` the x offset
      the family uses to place row 2, `rowY` the height of one row. */
  datatype Offsets = Offsets(repeatX: real, rowX: real, rowY: real)

  /** The lattice of one layer and the repeat offset that the closing lines read. */
  datatype Lattice = Lattice(steps: seq<Entry>, repeatX: real)

  /** A row: `n` tiles of `unit`, tile `i` moved `i * dx` along x. */
  function Row(unit: seq<Entry>, dx: real, n: int): seq<Entry>
  {
    CopyMove(unit, VX(dx), n)
  }

  /** Row 1 followed by row 2, stacked `n` times, copy `i` raised by `i * 2 * rowY`. */
  function TileRows(row1: seq<Entry>, row2: seq<Entry>, rowY: real, n: int): seq<Entry>
  {
    CopyMove(row1 + row2, VY(2.0 * rowY), n)
  }

  /** Tile `i` of a row is the unit moved `i * dx` along x. */
  lemma RowAt(unit: seq<Entry>, dx: real, n: int, i: int, k: int)
    requires 0 <= i < n && 0 <= k < |unit|
    ensures var row := Row(unit, dx, n);
      |row| == n * |unit| && 0 <= i * |unit| && i * |unit| + k < |row| &&
      row[i * |unit| + k] == MoveEntry(unit[k], VX(dx * i as real))
  {
    CopyMoveAt(unit, VX(dx), n, i, k);
    ScaleAxes(dx, i);
  }

  /** Where tile `i` of a row ends (entry `last`) and where tile `i + 1` begins have the
      same x whenever the repeat offset is the x distance from entry 0 to entry `last`. */
  lemma RowTilesAbut(unit: seq<Entry>, last: int, dx: real, n: int, i: int)
    requires HasXY(unit, 0) && HasXY(unit, last) && X(unit[last]) == X(unit[0]) + dx
    requires 0 <= i && i + 1 < n
    ensures var row := Row(unit, dx, n);
      HasXY(row, i * |unit| + last) && HasXY(row, (i + 1) * |unit|) &&
      X(row[i * |unit| + last]) == X(row[(i + 1) * |unit|])
  {
    RowAt(unit, dx, n, i, last);
    RowAt(unit, dx, n, i + 1, 0);
    assert X(unit[last]) + dx * i as real == X(unit[0]) + dx * (i + 1) as real;
  }

  /** When entry `last` of the unit is entry 0 moved by the repeat offset, tile `i` of
      a row ends exactly where tile `i + 1` begins. */
  lemma RowTilesJoin(unit: seq<Entry>, last: int, dx: real, n: int, i: int)
    requires 0 <= last < |unit| && unit[0].P? && unit[0].p.x.At?
    requires unit[last] == MoveEntry(unit[0], VX(dx))
    requires 0 <= i && i + 1 < n
    ensures var row := Row(unit, dx, n);
      0 <= i * |unit| && i * |unit| + last < |row| && (i + 1) * |unit| < |row| &&
      row[i * |unit| + last] == row[(i + 1) * |unit|]
  {
    RowAt(unit, dx, n, i, last);
    RowAt(unit, dx, n, i + 1, 0);
    var c := dx * i as real;
    assert dx * (i + 1) as real == dx + c;
    assert MoveEntry(MoveEntry(unit[0], VX(dx)), VX(c)) == MoveEntry(unit[0], VX(dx + c));
  }

  /** Entry `i * |row1 + row2| + k` of the stack is entry `k` of the row pair raised by
      `i * 2 * rowY`; only y changes. */
  lemma TileRowsAt(row1: seq<Entry>, row2: seq<Entry>, rowY: real, n: int, i: int, k: int)
    requires 0 <= i < n && 0 <= k < |row1 + row2|
    ensures var t := TileRows(row1, row2, rowY, n);
      |t| == n * |row1 + row2| && 0 <= i * |row1 + row2| && i * |row1 + row2| + k < |t| &&
      t[i * |row1 + row2| + k] == MoveEntry((row1 + row2)[k], VY(2.0 * rowY * i as real))
  {
    CopyMoveAt(row1 + row2, VY(2.0 * rowY), n, i, k);
    ScaleAxes(2.0 * rowY, i);
  }

  /** The lattice of M2, M3 and M4: row 1 of `n1` tiles of `unit` forward, row 2 of `n2`
      tiles of `back` backward, the pair stacked `pairs` times, with the offsets `o` read
      from the unit. */
  function PairLattice(unit: seq<Entry>, back: seq<Entry>, o: Offsets, n1: int, n2: int, pairs: int): Lattice
  {
    Lattice(TileRows(Row(unit, o.repeatX, n1), Row(back, -o.repeatX, n2), o.rowY, pairs), o.repeatX)
  }

  /** The row pair has `n1` tiles of one unit and `n2` of the other; the lattice is
      `pairs` copies of it, copy `i` raised by `2 * i` row heights. */
  lemma PairAt(unit: seq<Entry>, back: seq<Entry>, o: Offsets, n1: int, n2: int, pairs: int, i: int, k: int)
    requires 0 <= n1 && 0 <= n2 && 0 <= i < pairs
    ensures var pair := Row(unit, o.repeatX, n1) + Row(back, -o.repeatX, n2);
      var l := PairLattice(unit, back, o, n1, n2, pairs).steps;
      |pair| == n1 * |unit| + n2 * |back| && |l| == pairs * |pair| &&
      (0 <= k < |pair| ==>
        0 <= i * |pair| && i * |pair| + k < |l| && l[i * |pair| + k] == MoveEntry(pair[k], VY(2.0 * o.rowY * i as real)))
  {
    var row1, row2 := Row(unit, o.repeatX, n1), Row(back, -o.repeatX, n2);
    var l := PairLattice(unit, back, o, n1, n2, pairs).steps;
    assert l == TileRows(row1, row2, o.rowY, pairs);
    assert |row1| == n1 * |unit| && |row2| == n2 * |back|;
    assert |l| == pairs * |row1 + row2|;
    if 0 <= k < |row1 + row2| {
      TileRowsAt(row1, row2, o.rowY, pairs, i, k);
      assert l[i * |row1 + row2| + k] == MoveEntry((row1 + row2)[k], VY(2.0 * o.rowY * i as real));
    }
  }

  /** Markers alternate in the lattice when they do in both units. */
  lemma PairLatticeAlternates(unit: seq<Entry>, back: seq<Entry>, o: Offsets, n1: int, n2: int, pairs: int)
    requires Alternates(Toggles(unit)) && Alternates(Toggles(back))
    ensures Alternates(Toggles(PairLattice(unit, back, o, n1, n2, pairs).steps))
  {
    RowAlternates(unit, o.repeatX, n1);
    RowAlternates(back, -o.repeatX, n2);
    TileRowsAlternates(Row(unit, o.repeatX, n1), Row(back, -o.repeatX, n2), o.rowY, pairs);
  }

  /** Tiling keeps alternating markers alternating. */
  lemma RowAlternates(unit: seq<Entry>, dx: real, n: int)
    requires Alternates(Toggles(unit))
    ensures Alternates(Toggles(Row(unit, dx, n)))
  {
    TogglesCopies(unit, n, i => Scale(VX(dx), i));
  }

  /** Stacking row pairs keeps alternating markers alternating. */
  lemma TileRowsAlternates(row1: seq<Entry>, row2: seq<Entry>, rowY: real, n: int)
    requires Alternates(Toggles(row1)) && Alternates(Toggles(row2))
    ensures Alternates(Toggles(TileRows(row1, row2, rowY, n)))
  {
    TogglesAppend(row1, row2);
    AlternatesAppend(Toggles(row1), Toggles(row2));
    TogglesCopies(row1 + row2, n, i => Scale(VY(2.0 * rowY), i));
  }
}
