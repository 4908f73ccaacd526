/** The whole generator: pick the lattice family, close the layer with three return
    lines, optionally strip it to Points for the preview, stack the layers and place the
    model on the bed. */
module Toolpath {
  import opened Geometry
  import opened Rows
  import FamilyM1
  import FamilyM2
  import FamilyM3
  import FamilyM4

  /** The design parameters the generator reads. `visualize` is the `output` choice:
      true for the preview, false for G-code export. */
  datatype Params = Params(
    latticeId: string,
    alpha: real,
    seg: real,
    unitsX: int,
    unitsY: int,
    eh: real,
    layers: int,
    startX: real,
    startY: real,
    visualize: bool)

  /** The three sacrificial lines back to the start: one repeat offset back in x, then to
      y = 0, then to x = 0. Each Point sets only the coordinates it names. */
  function Closure(repeatX: real): (c: seq<Entry>)
    ensures |c| == 3 && forall k :: 0 <= k < 3 ==> c[k].P? && c[k].p.z.Absent?
    ensures c[0].p.x == At(-repeatX) && c[1].p.y == At(0.0) && c[2].p.x == At(0.0)
  {
    [P(Point(At(-repeatX), Absent, Absent)), P(Point(Absent, At(0.0), Absent)), P(Point(At(0.0), Absent, Absent))]
  }

  /** The lattice of one layer for the chosen family, or `None` where the script stops
      with an error: an unknown family name, a vertical M3 slope, an empty M4 row. */
  function FamilyLattice(lib: Lib, p: Params): Option<Lattice>
  {
    if p.latticeId == "M1" then Some(FamilyM1.Generate(lib, p.alpha, p.seg, p.unitsX, p.unitsY))
    else if p.latticeId == "M2" then Some(FamilyM2.Generate(lib, p.alpha, p.seg, p.unitsX, p.unitsY))
    else if p.latticeId == "M3" then FamilyM3.Generate(lib, p.alpha, p.seg, p.unitsX, p.unitsY)
    else if p.latticeId == "M4" then FamilyM4.Generate(lib, p.alpha, p.seg, p.unitsX, p.unitsY)
    else None
  }

  /** One layer: the lattice and its closing lines, reduced to its Points for the preview. */
  function Layer(l: Lattice, visualize: bool): seq<Entry>
  {
    var s := l.steps + Closure(l.repeatX);
    if visualize then PointsOnly(s) else s
  }

  /** `layers` copies of the layer, copy `i` raised by `i * eh`, all moved by the model
      offset `(startX, startY, 0.8 * eh)`. */
  function Place(layer: seq<Entry>, eh: real, layers: int, startX: real, startY: real): seq<Entry>
  {
    Move(CopyMove(layer, VZ(eh), layers), Vector(At(startX), At(startY), At(0.8 * eh)))
  }

  /** Everything after the family branch: close, reduce for the preview, stack, place. */
  function Finish(l: Lattice, p: Params): seq<Entry>
  {
    Place(Layer(l, p.visualize), p.eh, p.layers, p.startX, p.startY)
  }

  /** The generated steps, or `None` where the script stops with an error. */
  function Steps(lib: Lib, p: Params): Option<seq<Entry>>
  {
    match FamilyLattice(lib, p)
    case None => None
    case Some(l) => Some(Finish(l, p))
  }

  /** The statements after the family branch: the closing lines are appended to the
      lattice, the preview replaces it by its Points, then the layers are stacked and the
      stack moved by the model offset. */
  method FinishLayers(lattice: Lattice, p: Params) returns (steps: seq<Entry>)
    ensures steps == Finish(lattice, p)
  {
    var s := lattice.steps;
    s := s + Closure(lattice.repeatX);
    if p.visualize {
      s := PointsOnly(s);
    }
    var multilayer := CopyMove(s, VZ(p.eh), p.layers);
    steps := Move(multilayer, Vector(At(p.startX), At(p.startY), At(0.8 * p.eh)));
  }

  /** The script from the family dispatch to the final `fc.move`. */
  method Generate(lib: Lib, p: Params) returns (steps: Option<seq<Entry>>)
    ensures steps == Steps(lib, p)
  {
    var lattice: Lattice;
    if p.latticeId == "M1" {
      lattice := FamilyM1.Build(lib, p.alpha, p.seg, p.unitsX, p.unitsY);
    } else if p.latticeId == "M2" {
      lattice := FamilyM2.Build(lib, p.alpha, p.seg, p.unitsX, p.unitsY);
    } else if p.latticeId == "M3" {
      var r := FamilyM3.Build(lib, p.alpha, p.seg, p.unitsX, p.unitsY);
      if r.None? {
        return None;
      }
      lattice := r.value;
    } else if p.latticeId == "M4" {
      var r := FamilyM4.Build(lib, p.alpha, p.seg, p.unitsX, p.unitsY);
      if r.None? {
        return None;
      }
      lattice := r.value;
    } else {
      return None;
    }
    var s := FinishLayers(lattice, p);
    steps := Some(s);
  }

  /** The script produces steps exactly for the four family names, except for a vertical
      M3 slope and an M4 row without tiles. */
  lemma Defined(lib: Lib, p: Params)
    ensures Steps(lib, p).Some? <==>
      (p.latticeId == "M1" || p.latticeId == "M2" ||
       (p.latticeId == "M3" && FamilyM3.Rotatable(FamilyM3.Draft(lib, p.alpha, p.seg))) ||
       (p.latticeId == "M4" && p.unitsX >= 1))
  {
  }

  /** The stack has `layers` copies of the layer, and for export each layer is the lattice
      plus the three closing lines. */
  lemma StepsLength(lib: Lib, p: Params)
    requires Steps(lib, p).Some?
    ensures var l := FamilyLattice(lib, p).value;
      var n := |Layer(l, p.visualize)|;
      |Steps(lib, p).value| == (if p.layers <= 0 then 0 else p.layers * n) &&
      (!p.visualize ==> n == |l.steps| + 3)
  {
  }

  /** Entry `k` of layer copy `i` is the layer's entry `k` raised by `i * eh` and moved by
      the model offset; a Point that has a z ends at `z + i * eh + 0.8 * eh`. */
  lemma PlaceAt(layer: seq<Entry>, eh: real, layers: int, startX: real, startY: real, i: int, k: int)
    requires 0 <= i < layers && 0 <= k < |layer|
    ensures var t := Place(layer, eh, layers, startX, startY);
      var e := MoveEntry(MoveEntry(layer[k], VZ(eh * i as real)), Vector(At(startX), At(startY), At(0.8 * eh)));
      |t| == layers * |layer| && 0 <= i * |layer| && i * |layer| + k < |t| && t[i * |layer| + k] == e &&
      (layer[k].P? && layer[k].p.z.At? ==> e.p.z == At(layer[k].p.z.value + eh * i as real + 0.8 * eh))
  {
    CopyMoveAt(layer, VZ(eh), layers, i, k);
    ScaleAxes(eh, i);
  }

  /** Stripping a layer to its Points before stacking and placing it gives the stripped
      stack: the preview is the export with every marker removed. */
  lemma FinishPreview(l: Lattice, p: Params)
    requires p.visualize
    ensures Finish(l, p) == PointsOnly(Finish(l, p.(visualize := false)))
    ensures Toggles(Finish(l, p)) == []
  {
    var s := Layer(l, false);
    var v := Vector(At(p.startX), At(p.startY), At(0.8 * p.eh));
    var stack := CopyMove(s, VZ(p.eh), p.layers);
    PointsOnlyCopies(s, p.layers, i => Scale(VZ(p.eh), i));
    PointsOnlyMove(stack, v);
    PointsOnlyNoMarkers(Move(stack, v));
  }

  /** The preview is the export of the same design with every marker removed, and it has
      no markers. */
  lemma PreviewIsPointsOnly(lib: Lib, p: Params)
    requires Steps(lib, p).Some? && p.visualize
    ensures Steps(lib, p.(visualize := false)).Some?
    ensures Steps(lib, p).value == PointsOnly(Steps(lib, p.(visualize := false)).value)
    ensures Toggles(Steps(lib, p).value) == []
  {
    assert FamilyLattice(lib, p.(visualize := false)) == FamilyLattice(lib, p);
    FinishPreview(FamilyLattice(lib, p).value, p);
  }

  /** Every family's lattice has alternating markers: travel off, print on, ending on. */
  lemma FamilyMarkers(lib: Lib, p: Params)
    requires FamilyLattice(lib, p).Some?
    ensures Alternates(Toggles(FamilyLattice(lib, p).value.steps))
  {
    if p.latticeId == "M1" {
      FamilyM1.GenerateMarkers(lib, p.alpha, p.seg, p.unitsX, p.unitsY);
    } else if p.latticeId == "M2" {
      FamilyM2.GenerateMarkers(lib, p.alpha, p.seg, p.unitsX, p.unitsY);
    } else if p.latticeId == "M3" {
      FamilyM3.GenerateMarkers(lib, p.alpha, p.seg, p.unitsX, p.unitsY);
    } else {
      FamilyM4.GenerateMarkers(lib, p.alpha, p.seg, p.unitsX, p.unitsY);
    }
  }

  /** In an export whose lattice has alternating markers, the markers of the whole print
      alternate and printing is on at the end. */
  lemma FinishMarkers(l: Lattice, p: Params)
    requires !p.visualize && Alternates(Toggles(l.steps))
    ensures Alternates(Toggles(Finish(l, p)))
    ensures ExtrudingAfter(Finish(l, p))
  {
    var c := Closure(l.repeatX);
    PointsOnlyKeepsPoints(c);
    PointsOnlyNoMarkers(c);
    TogglesAppend(l.steps, c);
    assert Toggles(l.steps) + [] == Toggles(l.steps);
    var s := Layer(l, false);
    TogglesCopies(s, p.layers, i => Scale(VZ(p.eh), i));
    TogglesMove(CopyMove(s, VZ(p.eh), p.layers), Vector(At(p.startX), At(p.startY), At(0.8 * p.eh)));
    AlternatesEndsOn(Finish(l, p));
  }

  /** In the export, markers alternate over the whole print, so each travel move is
      followed by a return to printing and printing is on when the print ends. */
  lemma ExportMarkers(lib: Lib, p: Params)
    requires Steps(lib, p).Some? && !p.visualize
    ensures Alternates(Toggles(Steps(lib, p).value))
    ensures ExtrudingAfter(Steps(lib, p).value)
  {
    FamilyMarkers(lib, p);
    FinishMarkers(FamilyLattice(lib, p).value, p);
  }

  /** An exported M1 design has, per layer, `2 * units_y - 1` strips of `8 * units_x`
      entries and the three closing lines; counts below one give nothing. */
  lemma M1ExportLength(lib: Lib, p: Params)
    requires p.latticeId == "M1" && !p.visualize
    ensures var tiles := if p.unitsX <= 0 then 0 else p.unitsX;
      var rows := if p.unitsY <= 0 then 0 else 2 * p.unitsY - 1;
      var layers := if p.layers <= 0 then 0 else p.layers;
      Steps(lib, p).Some? && |Steps(lib, p).value| == layers * (rows * (8 * tiles) + 3)
  {
    StepsLength(lib, p);
    FamilyM1.GenerateLength(lib, p.alpha, p.seg, p.unitsX, p.unitsY);
  }
}
