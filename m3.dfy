/** Lattice family M3: an 18-step unit drawn from the origin, rotated about its second
    Point so that its Points 1 and 15 are level, tiled along x (row 1); a return unit
    assembled from copies of the rotated unit's Points, tiled `units_x + 1` times back
    along x (row 2); and the row pair stacked `units_y` times. */
module FamilyM3 {
  import opened Geometry
  import opened Units
  import opened Tables
  import opened Rows

  /** M3 angles use alpha only: no deviation angle. */
  function PenOf(alpha: real, seg: real): Pen { Pen(seg, 0.0, alpha) }

  /** 19 entries, every Point with x and y, and the entries the rotation, the offsets and
      the return unit read are Points. */
  predicate Shaped(u: seq<Entry>)
  {
    |u| == 19 && AllXY(u) && HasXY(u, 0) && HasXY(u, 1) && HasXY(u, 2) && HasXY(u, 3) &&
    HasXY(u, 8) && HasXY(u, 9) && HasXY(u, 10) && HasXY(u, 11) && HasXY(u, 15) && HasXY(u, 17)
  }

  lemma UnitShape(lib: Lib, pen: Pen)
    ensures Shaped(Chain(lib, pen, Origin, M3Steps))
  {
    M3Points();
    ChainPointXY(lib, pen, Origin, M3Steps, 1);
    ChainPointXY(lib, pen, Origin, M3Steps, 2);
    ChainPointXY(lib, pen, Origin, M3Steps, 3);
    ChainPointXY(lib, pen, Origin, M3Steps, 8);
    ChainPointXY(lib, pen, Origin, M3Steps, 9);
    ChainPointXY(lib, pen, Origin, M3Steps, 10);
    ChainPointXY(lib, pen, Origin, M3Steps, 11);
    ChainPointXY(lib, pen, Origin, M3Steps, 15);
    ChainPointXY(lib, pen, Origin, M3Steps, 17);
    ChainKinds(lib, pen, Origin, M3Steps);
  }

  /** The M3 unit as drawn, before the rotation. */
  function Draft(lib: Lib, alpha: real, seg: real): (u: seq<Entry>)
    ensures Shaped(u) && u[0] == P(Origin)
  {
    UnitShape(lib, PenOf(alpha, seg));
    Chain(lib, PenOf(alpha, seg), Origin, M3Steps)
  }

  /** The slope from Point 1 to Point 15 is defined: it is a division by zero otherwise. */
  predicate Rotatable(u: seq<Entry>)
    requires Shaped(u)
  {
    X(u[15]) != X(u[1])
  }

  /** Minus the arctangent of the slope from Point 1 to Point 15. */
  function RotationAngle(lib: Lib, u: seq<Entry>): real
    requires Shaped(u) && Rotatable(u)
  {
    -lib.atan((Y(u[15]) - Y(u[1])) / (X(u[15]) - X(u[1])))
  }

  /** The unit rotated about its Point 1: every Point moves, every marker stays. */
  function Rotate(lib: Lib, u: seq<Entry>): (r: seq<Entry>)
    requires Shaped(u) && Rotatable(u)
    ensures Shaped(r)
    ensures forall k :: 0 <= k < |u| ==> r[k].P? == u[k].P? && (u[k].Extruder? ==> r[k] == u[k])
  {
    MovePolar(lib, u, X(u[1]), Y(u[1]), RotationAngle(lib, u))
  }

  /** Offsets of the rotated unit: `rowX` is the x offset of the return unit before the
      `units_x + 1` repeat offsets are added to it. */
  function ReadOffsets(r: seq<Entry>): Offsets
    requires Shaped(r)
  {
    Offsets(X(r[17]) - X(r[0]), X(r[3]) - X(r[9]), Y(r[3]) - Y(r[9]))
  }

  /** The return unit before it is placed: Points of the rotated unit, some of them one
      repeat offset back along x, with its own markers. */
  function BackDraft(r: seq<Entry>): (b: seq<Entry>)
    requires Shaped(r)
    ensures |b| == 19
  {
    var d := VX(-ReadOffsets(r).repeatX);
    [r[0], r[2], r[3], Extruder(false), r[2], Extruder(true), r[1], r[0], Extruder(false),
     r[1], Extruder(true), MoveEntry(r[10], d), MoveEntry(r[11], d), Extruder(false),
     MoveEntry(r[10], d), Extruder(true), MoveEntry(r[9], d), MoveEntry(r[8], d), MoveEntry(r[0], d)]
  }

  /** Where the return unit is placed: past `units_x + 1` repeat offsets in x and one row
      up. */
  function BackPlace(r: seq<Entry>, ux: int): Vector
    requires Shaped(r)
  {
    var o := ReadOffsets(r);
    Vector(At(o.rowX + (ux + 1) as real * o.repeatX), At(o.rowY), Absent)
  }

  function Back(r: seq<Entry>, ux: int): (b: seq<Entry>)
    requires Shaped(r)
    ensures |b| == 19
  {
    Move(BackDraft(r), BackPlace(r, ux))
  }

  /** The M3 lattice of one layer, or `None` where the rotation angle divides by zero. */
  function Generate(lib: Lib, alpha: real, seg: real, ux: int, uy: int): Option<Lattice>
  {
    var u := Draft(lib, alpha, seg);
    if Rotatable(u) then
      var r := Rotate(lib, u);
      Some(PairLattice(r, Back(r, ux), ReadOffsets(r), ux, ux + 1, uy))
    else None
  }

  /** The M3 branch of the script: draw the unit, rotate it, assemble the return unit,
      tile and stack. */
  method Build(lib: Lib, alpha: real, seg: real, ux: int, uy: int) returns (l: Option<Lattice>)
    ensures l == Generate(lib, alpha, seg, ux, uy)
    ensures l.None? <==> X(Draft(lib, alpha, seg)[15]) == X(Draft(lib, alpha, seg)[1])
  {
    M3Reads();
    var unit := BuildUnit(lib, PenOf(alpha, seg), Origin, M3Steps);
    UnitShape(lib, PenOf(alpha, seg));
    if X(unit[15]) == X(unit[1]) {
      l := None;
    } else {
      unit := Rotate(lib, unit);
      var back := Back(unit, ux);
      l := Some(PairLattice(unit, back, ReadOffsets(unit), ux, ux + 1, uy));
    }
  }

  /** A rigid rotation keeps the distance between every pair of consecutive Points. */
  lemma RotateKeepsDistances(lib: Lib, u: seq<Entry>, d: real)
    requires Shaped(u) && Rotatable(u) && Rigid(lib)
    requires forall j, k :: Consecutive(u, j, k) ==> Dist2(u[j].p, u[k].p) == d
    ensures var r := Rotate(lib, u);
      forall j, k :: Consecutive(r, j, k) ==> Dist2(r[j].p, r[k].p) == d
  {
    var r := Rotate(lib, u);
    forall j, k | Consecutive(r, j, k) ensures Dist2(r[j].p, r[k].p) == d {
      RotateConsecutive(lib, u, j, k);
      MovePolarDist(lib, u, X(u[1]), Y(u[1]), RotationAngle(lib, u), j, k);
    }
  }

  /** The rotation keeps which entries are Points, so it keeps consecutive pairs. */
  lemma RotateConsecutive(lib: Lib, u: seq<Entry>, j: int, k: int)
    requires Shaped(u) && Rotatable(u) && Consecutive(Rotate(lib, u), j, k)
    ensures Consecutive(u, j, k)
  {
    var r := Rotate(lib, u);
    forall m | j < m < k ensures u[m].Extruder? {
      assert r[m].Extruder?;
    }
  }

  /** The rotation is rigid: consecutive Points of the rotated unit are one strut length
      apart, as they were in the drawn unit. */
  lemma RotatedStruts(lib: Lib, alpha: real, seg: real)
    requires Pythagorean(lib) && Rigid(lib) && Rotatable(Draft(lib, alpha, seg))
    ensures var r := Rotate(lib, Draft(lib, alpha, seg));
      forall j, k :: Consecutive(r, j, k) ==> Dist2(r[j].p, r[k].p) == PenOf(alpha, seg).seg * PenOf(alpha, seg).seg
  {
    ChainRotatedStruts(lib, PenOf(alpha, seg), M3Steps);
  }

  /** A unit drawn from any table that gives it the M3 shape keeps its strut lengths
      through the rotation. */
  lemma ChainRotatedStruts(lib: Lib, pen: Pen, steps: seq<Step>)
    requires Pythagorean(lib) && Rigid(lib)
    requires Shaped(Chain(lib, pen, Origin, steps)) && Rotatable(Chain(lib, pen, Origin, steps))
    ensures var r := Rotate(lib, Chain(lib, pen, Origin, steps));
      forall j, k :: Consecutive(r, j, k) ==> Dist2(r[j].p, r[k].p) == pen.seg * pen.seg
  {
    StrutLengths(lib, pen, Origin, steps);
    RotateKeepsDistances(lib, Chain(lib, pen, Origin, steps), pen.seg * pen.seg);
  }

  /** Which entries of the unplaced return unit are markers, and their values. */
  lemma BackDraftKinds(r: seq<Entry>)
    requires Shaped(r)
    ensures var b := BackDraft(r);
      b[3] == Extruder(false) && b[5] == Extruder(true) && b[8] == Extruder(false) &&
      b[10] == Extruder(true) && b[13] == Extruder(false) && b[15] == Extruder(true) &&
      b[0].P? && b[1].P? && b[2].P? && b[4].P? && b[6].P? && b[7].P? && b[9].P? &&
      b[11].P? && b[12].P? && b[14].P? && b[16].P? && b[17].P? && b[18].P?
  {
  }

  /** A 19-entry list with markers off, on at 3, 5, then 8, 10, then 13, 15 and Points
      elsewhere has the markers off, on three times. */
  lemma SixMarkers(b: seq<Entry>)
    requires |b| == 19
    requires b[3] == Extruder(false) && b[5] == Extruder(true) && b[8] == Extruder(false) &&
      b[10] == Extruder(true) && b[13] == Extruder(false) && b[15] == Extruder(true)
    requires b[0].P? && b[1].P? && b[2].P? && b[4].P? && b[6].P? && b[7].P? && b[9].P? &&
      b[11].P? && b[12].P? && b[14].P? && b[16].P? && b[17].P? && b[18].P?
    ensures Toggles(b) == [false, true, false, true, false, true]
  {
    assert TogglesFrom(b, 19) == [];
    TogglesFromStep(b, 18); TogglesFromStep(b, 17); TogglesFromStep(b, 16);
    TogglesFromStep(b, 15);
    assert TogglesFrom(b, 15) == [true];
    TogglesFromStep(b, 14); TogglesFromStep(b, 13);
    assert TogglesFrom(b, 13) == [false, true];
    TogglesFromStep(b, 12); TogglesFromStep(b, 11); TogglesFromStep(b, 10);
    assert TogglesFrom(b, 10) == [true, false, true];
    TogglesFromStep(b, 9); TogglesFromStep(b, 8);
    assert TogglesFrom(b, 8) == [false, true, false, true];
    TogglesFromStep(b, 7); TogglesFromStep(b, 6); TogglesFromStep(b, 5);
    assert TogglesFrom(b, 5) == [true, false, true, false, true];
    TogglesFromStep(b, 4); TogglesFromStep(b, 3);
    assert TogglesFrom(b, 3) == [false, true, false, true, false, true];
    TogglesFromStep(b, 2); TogglesFromStep(b, 1); TogglesFromStep(b, 0);
    TogglesFromSuffix(b, 0);
    assert b[0..] == b;
  }

  /** The markers of the return unit alternate: off, on, three times. */
  lemma BackMarkers(r: seq<Entry>, ux: int)
    requires Shaped(r)
    ensures Toggles(Back(r, ux)) == [false, true, false, true, false, true]
    ensures Alternates(Toggles(Back(r, ux)))
  {
    BackDraftKinds(r);
    SixMarkers(BackDraft(r));
    TogglesMove(BackDraft(r), BackPlace(r, ux));
  }

  /** Row 2 is continuous: each return tile ends exactly where the next one begins. */
  lemma BackRowContinuous(r: seq<Entry>, ux: int, i: int)
    requires Shaped(r) && 0 <= i && i + 1 < ux + 1
    ensures var row := Row(Back(r, ux), -ReadOffsets(r).repeatX, ux + 1);
      |row| == 19 * (ux + 1) && 19 * i + 18 < |row| && row[19 * i + 18] == row[19 * (i + 1)]
  {
    var o := ReadOffsets(r);
    var b := Back(r, ux);
    var v := BackPlace(r, ux);
    assert b[18] == MoveEntry(MoveEntry(r[0], VX(-o.repeatX)), v);
    assert b[0] == MoveEntry(r[0], v);
    ShiftXThenMove(r[0], v, -o.repeatX);
    RowTilesJoin(b, 18, -o.repeatX, ux + 1, i);
    assert i * 19 + 18 == 19 * i + 18 && (i + 1) * 19 == 19 * (i + 1);
  }

  /** Moving a Point `a` along x and then by `v` lands where moving it by `v` and then
      `a` along x does. */
  lemma ShiftXThenMove(e: Entry, v: Vector, a: real)
    requires e.P? && e.p.x.At? && v.x.At?
    ensures MoveEntry(MoveEntry(e, VX(a)), v) == MoveEntry(MoveEntry(e, v), VX(a))
  {
  }

  /** With the offsets `o` read from the rotated unit, row 1 has `ux` tiles and row 2
      `ux + 1`, so the row pair is `38 * ux + 19` entries; the lattice is `uy` copies of
      it, copy `i` raised by `2 * i` row heights. */
  lemma LatticeAt(r: seq<Entry>, back: seq<Entry>, o: Offsets, ux: int, uy: int, i: int, k: int)
    requires |r| == 19 && |back| == 19 && 0 <= ux && 0 <= i < uy
    ensures var pair := Row(r, o.repeatX, ux) + Row(back, -o.repeatX, ux + 1);
      var l := PairLattice(r, back, o, ux, ux + 1, uy).steps;
      |pair| == 38 * ux + 19 && |l| == uy * |pair| &&
      (0 <= k < |pair| ==>
        0 <= i * |pair| && i * |pair| + k < |l| && l[i * |pair| + k] == MoveEntry(pair[k], VY(2.0 * o.rowY * i as real)))
  {
    PairAt(r, back, o, ux, ux + 1, uy, i, k);
    assert ux * 19 + (ux + 1) * 19 == 38 * ux + 19;
  }

  /** The repeat offset is chosen so that consecutive tiles of row 1 meet in x: tile `i`
      ends (Point 17) at the x where tile `i + 1` starts. Only x is compared; this checks
      the offset choice, not the y of the joint. */
  lemma TilesAbut(r: seq<Entry>, ux: int, i: int)
    requires Shaped(r) && 0 <= i && i + 1 < ux
    ensures var row := Row(r, ReadOffsets(r).repeatX, ux);
      HasXY(row, 19 * i + 17) && HasXY(row, 19 * i + 19) && X(row[19 * i + 17]) == X(row[19 * i + 19])
  {
    RowTilesAbut(r, 17, ReadOffsets(r).repeatX, ux, i);
    assert i * 19 + 17 == 19 * i + 17 && (i + 1) * 19 == 19 * i + 19;
  }

  lemma RotateKeepsMarkers(lib: Lib, u: seq<Entry>)
    requires Shaped(u) && Rotatable(u)
    ensures Toggles(Rotate(lib, u)) == Toggles(u)
  {
    TogglesKeptByMarkerPreservingMap(u, Rotate(lib, u));
  }

  lemma UnitMarkers(lib: Lib, alpha: real, seg: real)
    requires Rotatable(Draft(lib, alpha, seg))
    ensures Alternates(Toggles(Rotate(lib, Draft(lib, alpha, seg))))
  {
    M3Alternates();
    ChainAlternates(lib, PenOf(alpha, seg), Origin, M3Steps);
    RotateKeepsMarkers(lib, Draft(lib, alpha, seg));
  }

  /** Where the M3 lattice exists, it has alternating markers: travel off, print on,
      ending on. */
  lemma GenerateMarkers(lib: Lib, alpha: real, seg: real, ux: int, uy: int)
    requires Generate(lib, alpha, seg, ux, uy).Some?
    ensures Alternates(Toggles(Generate(lib, alpha, seg, ux, uy).value.steps))
  {
    UnitMarkers(lib, alpha, seg);
    var r := Rotate(lib, Draft(lib, alpha, seg));
    BackMarkers(r, ux);
    PairLatticeAlternates(r, Back(r, ux), ReadOffsets(r), ux, ux + 1, uy);
  }
}
