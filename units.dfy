/** Unit cells as chains of polar steps (app.py:57-63, 84-106, 117-142,
    149-169, 212-227, 236-253). A unit list starts with one Point and grows
    by `.append`: either a marker, or the Point one strut length away, at a
    given angle, from the entry `[-1]` or `[-2]` of the list so far. */
module Units {
  import opened Geometry

  /** An angle in degrees, `deg + dev * dev_angle + alpha * alpha`; every
      angle the four families use has this form. */
  datatype Angle = Angle(deg: real, dev: real, alpha: real)

  /** One `.append` after the first Point: a polar step from the entry `back`
      places from the end of the list (1 for `[-1]`, 2 for `[-2]`), or a marker. */
  datatype Step = Strut(back: nat, angle: Angle) | Toggle(on: bool)

  /** The scalars one unit is drawn with: strut length, deviation angle and
      star-polygon angle alpha (degrees). */
  datatype Pen = Pen(seg: real, dev: real, alpha: real)

  function Degrees(a: Angle, pen: Pen): real { a.deg + a.dev * pen.dev + a.alpha * pen.alpha }

  /** The end of a strut drawn from `from` at angle `a`. */
  function StrutEnd(lib: Lib, pen: Pen, from: Point, a: Angle): Point
    requires XY(from)
  {
    PolarToPoint(lib, from, pen.seg, Radians(Degrees(a, pen)))
  }

  /** Unit index `j` (0 is the start Point) holds a Point. */
  predicate PointAt(steps: seq<Step>, j: int)
  {
    j == 0 || (1 <= j <= |steps| && steps[j - 1].Strut?)
  }

  /** The entries `steps` add when every strut starts from the most recent
      Point, here `cur`. */
  function ChainFrom(lib: Lib, pen: Pen, cur: Point, steps: seq<Step>): (r: seq<Entry>)
    requires XY(cur)
    ensures |r| == |steps|
    decreases |steps|
  {
    if steps == [] then []
    else match steps[0]
      case Strut(_, a) =>
        var q := StrutEnd(lib, pen, cur, a);
        [P(q)] + ChainFrom(lib, pen, q, steps[1..])
      case Toggle(on) => [Extruder(on)] + ChainFrom(lib, pen, cur, steps[1..])
  }

  /** The unit a step table describes, read as "every strut starts from the
      most recent Point". */
  function Chain(lib: Lib, pen: Pen, start: Point, steps: seq<Step>): (u: seq<Entry>)
    requires XY(start)
    ensures |u| == |steps| + 1 && u[0] == P(start)
  {
    [P(start)] + ChainFrom(lib, pen, start, steps)
  }

  /** Each step adds one entry: a strut a Point with both planar coordinates at the
      height of the most recent Point, a marker the marker it names. */
  lemma {:induction false} ChainFromKinds(lib: Lib, pen: Pen, cur: Point, steps: seq<Step>)
    requires XY(cur)
    ensures var r := ChainFrom(lib, pen, cur, steps);
      (forall k :: 0 <= k < |r| ==> (r[k].P? <==> steps[k].Strut?)) &&
      (forall k :: 0 <= k < |r| && r[k].P? ==> XY(r[k].p) && r[k].p.z == cur.z) &&
      (forall k :: 0 <= k < |r| && steps[k].Toggle? ==> r[k] == Extruder(steps[k].on))
    decreases |steps|
  {
    if steps != [] {
      var r := ChainFrom(lib, pen, cur, steps);
      var next := if steps[0].Strut? then StrutEnd(lib, pen, cur, steps[0].angle) else cur;
      var tail := ChainFrom(lib, pen, next, steps[1..]);
      ChainFromKinds(lib, pen, next, steps[1..]);
      assert r[0] == if steps[0].Strut? then P(next) else Extruder(steps[0].on);
      forall k | 1 <= k < |r| ensures r[k] == tail[k - 1] && steps[k] == steps[1..][k - 1] {
      }
    }
  }

  /** A unit has a Point exactly where its table has a strut (and at the start), every
      Point has both planar coordinates and the start's height, and every marker is the
      one its step names. */
  lemma ChainKinds(lib: Lib, pen: Pen, start: Point, steps: seq<Step>)
    requires XY(start)
    ensures var u := Chain(lib, pen, start, steps);
      (forall j :: 0 <= j < |u| ==> (u[j].P? <==> PointAt(steps, j))) && AllXY(u) &&
      (forall j :: 0 <= j < |u| && u[j].P? ==> u[j].p.z == start.z) &&
      (forall j :: 1 <= j < |u| && steps[j - 1].Toggle? ==> u[j] == Extruder(steps[j - 1].on))
  {
    var u := Chain(lib, pen, start, steps);
    var r := ChainFrom(lib, pen, start, steps);
    ChainFromKinds(lib, pen, start, steps);
    forall j | 1 <= j < |u| ensures u[j] == r[j - 1] {
    }
  }

  /** The read of step `i` names the most recent Point of the list: `[-1]`
      right after a Point, `[-2]` right after a marker that follows a Point. */
  predicate ReadsLastPointAt(steps: seq<Step>, i: int)
    requires 0 <= i < |steps|
  {
    match steps[i]
    case Strut(b, _) =>
      (b == 1 && PointAt(steps, i)) || (b == 2 && 1 <= i && !PointAt(steps, i) && PointAt(steps, i - 1))
    case Toggle(_) => true
  }

  predicate ReadsLastPoint(steps: seq<Step>)
  {
    forall i :: 0 <= i < |steps| ==> ReadsLastPointAt(steps, i)
  }

  /** Builds a unit list as app.py does: append by append, each strut read
      from `unit[-back]`. When every read names the most recent Point, the
      list is the chain the table describes. */
  method BuildUnit(lib: Lib, pen: Pen, start: Point, steps: seq<Step>) returns (unit: seq<Entry>)
    requires XY(start) && ReadsLastPoint(steps)
    ensures unit == Chain(lib, pen, start, steps)
  {
    unit := [P(start)];
    ghost var cur := start;
    for i := 0 to |steps|
      invariant |unit| == i + 1 && XY(cur)
      invariant unit + ChainFrom(lib, pen, cur, steps[i..]) == Chain(lib, pen, start, steps)
      invariant forall j :: 0 <= j < |unit| ==> (unit[j].P? <==> PointAt(steps, j))
      invariant PointAt(steps, i) ==> unit[i] == P(cur)
      invariant 1 <= i && !PointAt(steps, i) && PointAt(steps, i - 1) ==> unit[i - 1] == P(cur)
    {
      assert ReadsLastPointAt(steps, i);
      ChainAdvance(lib, pen, cur, steps, i, unit);
      match steps[i]
      case Strut(back, a) =>
        var from := unit[|unit| - back].p;
        unit := unit + [P(StrutEnd(lib, pen, from, a))];
        cur := StrutEnd(lib, pen, cur, a);
      case Toggle(on) =>
        unit := unit + [Extruder(on)];
    }
    assert steps[|steps|..] == [];
  }

  /** One append moves one entry from the part still to build to the list. */
  lemma ChainAdvance(lib: Lib, pen: Pen, cur: Point, steps: seq<Step>, i: int, built: seq<Entry>)
    requires XY(cur) && 0 <= i < |steps|
    ensures steps[i].Strut? ==>
      var q := StrutEnd(lib, pen, cur, steps[i].angle);
      built + ChainFrom(lib, pen, cur, steps[i..]) == (built + [P(q)]) + ChainFrom(lib, pen, q, steps[i + 1..])
    ensures steps[i].Toggle? ==>
      built + ChainFrom(lib, pen, cur, steps[i..]) == (built + [Extruder(steps[i].on)]) + ChainFrom(lib, pen, cur, steps[i + 1..])
  {
    assert steps[i..][1..] == steps[i + 1..];
  }

  /** Points `j` and `k` of `u` follow each other, with only markers between. */
  predicate Consecutive(u: seq<Entry>, j: int, k: int)
  {
    0 <= j < k < |u| && u[j].P? && u[k].P? && forall m :: j < m < k ==> u[m].Extruder?
  }

  /** When `u` from index `from` on is `v` shifted by `d`, a consecutive pair
      of `u` past `from` is one of `v`. */
  lemma ConsecutiveDrop(u: seq<Entry>, v: seq<Entry>, d: int, from: int, j: int, k: int)
    requires 0 <= d <= from <= j && |u| == |v| + d
    requires Consecutive(u, j, k)
    requires u[from..] == v[from - d..]
    ensures Consecutive(v, j - d, k - d)
  {
    forall m | j - d <= m <= k - d ensures u[m + d] == v[m] {
      assert u[m + d] == u[from..][m + d - from] && v[m] == v[from - d..][m + d - from];
    }
  }

  /** Dropping one marker right after the first Point keeps every consecutive
      pair, each index past the marker moved down by one. */
  lemma ConsecutiveSkipMarker(u: seq<Entry>, v: seq<Entry>, j: int, k: int)
    requires |u| == |v| + 1 && 1 < |u| && u[0] == v[0] && u[1].Extruder?
    requires u[2..] == v[1..]
    requires Consecutive(u, j, k)
    ensures var j' := if j == 0 then 0 else j - 1;
      2 <= k && Consecutive(v, j', k - 1) && u[j] == v[j'] && u[k] == v[k - 1]
  {
    assert u[k] == u[2..][k - 2] && v[k - 1] == v[1..][k - 2];
    if j == 0 {
      forall m | 0 < m <= k - 1 ensures u[m + 1] == v[m] {
        assert u[m + 1] == u[2..][m - 1] && v[m] == v[1..][m - 1];
      }
    } else {
      assert j >= 2;
      assert u[j] == u[2..][j - 2] && v[j - 1] == v[1..][j - 2];
      ConsecutiveDrop(u, v, 1, 2, j, k);
    }
  }

  /** In a chain, each Point is the end of the strut drawn from the Point
      before it, whatever markers lie between them. */
  lemma {:induction false} ChainStep(lib: Lib, pen: Pen, start: Point, steps: seq<Step>, j: int, k: int)
    requires XY(start) && Consecutive(Chain(lib, pen, start, steps), j, k)
    ensures steps[k - 1].Strut?
    ensures var u := Chain(lib, pen, start, steps);
      XY(u[j].p) && u[k].p == StrutEnd(lib, pen, u[j].p, steps[k - 1].angle)
    decreases |steps|, 2
  {
    if steps[0].Toggle? {
      ChainStepAfterMarker(lib, pen, start, steps, j, k);
    } else {
      ChainStepAfterStrut(lib, pen, start, steps, j, k);
    }
  }

  /** ChainStep when the table starts with a strut. */
  lemma {:induction false} ChainStepAfterStrut(lib: Lib, pen: Pen, start: Point, steps: seq<Step>, j: int, k: int)
    requires XY(start) && |steps| > 0 && steps[0].Strut?
    requires Consecutive(Chain(lib, pen, start, steps), j, k)
    ensures steps[k - 1].Strut?
    ensures var u := Chain(lib, pen, start, steps);
      XY(u[j].p) && u[k].p == StrutEnd(lib, pen, u[j].p, steps[k - 1].angle)
    decreases |steps|, 1
  {
    if j == 0 {
      ChainFirstStrut(lib, pen, start, steps, k);
    } else {
      var u := Chain(lib, pen, start, steps);
      var rest := steps[1..];
      var q := StrutEnd(lib, pen, start, steps[0].angle);
      var u' := Chain(lib, pen, q, rest);
      ChainTailStrut(lib, pen, start, steps);
      ConsecutiveDrop(u, u', 1, 1, j, k);
      ChainStep(lib, pen, q, rest, j - 1, k - 1);
      assert steps[k - 1] == rest[k - 2];
      assert u[j] == u[1..][j - 1] && u[k] == u[1..][k - 1];
    }
  }

  /** A table that starts with a strut: after the start, the unit is the unit of the
      rest of the table from that strut's end. */
  lemma ChainTailStrut(lib: Lib, pen: Pen, start: Point, steps: seq<Step>)
    requires XY(start) && |steps| > 0 && steps[0].Strut?
    ensures var u := Chain(lib, pen, start, steps);
      var u' := Chain(lib, pen, StrutEnd(lib, pen, start, steps[0].angle), steps[1..]);
      |u| == |u'| + 1 && u[1..] == u'
  {
    var u := Chain(lib, pen, start, steps);
    var u' := Chain(lib, pen, StrutEnd(lib, pen, start, steps[0].angle), steps[1..]);
    assert u == [P(start)] + u';
  }

  /** A table that starts with a strut: the Point after the start is that strut's end. */
  lemma ChainFirstStrut(lib: Lib, pen: Pen, start: Point, steps: seq<Step>, k: int)
    requires XY(start) && |steps| > 0 && steps[0].Strut?
    requires Consecutive(Chain(lib, pen, start, steps), 0, k)
    ensures k == 1 && Chain(lib, pen, start, steps)[1].p == StrutEnd(lib, pen, start, steps[0].angle)
  {
    var u := Chain(lib, pen, start, steps);
    assert u[1].P? && !u[1].Extruder?;
  }

  /** A table that starts with a marker: after the start and that marker, the unit is
      the unit of the rest of the table from the same start. */
  lemma ChainTailMarker(lib: Lib, pen: Pen, start: Point, steps: seq<Step>)
    requires XY(start) && |steps| > 0 && steps[0].Toggle?
    ensures var u := Chain(lib, pen, start, steps);
      var u' := Chain(lib, pen, start, steps[1..]);
      |u| == |u'| + 1 && u[0] == u'[0] && u[1] == Extruder(steps[0].on) && u[2..] == u'[1..]
  {
    var tail := ChainFrom(lib, pen, start, steps[1..]);
    assert Chain(lib, pen, start, steps) == [P(start)] + ([Extruder(steps[0].on)] + tail);
    assert Chain(lib, pen, start, steps[1..]) == [P(start)] + tail;
  }

  /** ChainStep when the table starts with a marker. */
  lemma {:induction false} ChainStepAfterMarker(lib: Lib, pen: Pen, start: Point, steps: seq<Step>, j: int, k: int)
    requires XY(start) && |steps| > 0 && steps[0].Toggle?
    requires Consecutive(Chain(lib, pen, start, steps), j, k)
    ensures steps[k - 1].Strut?
    ensures var u := Chain(lib, pen, start, steps);
      XY(u[j].p) && u[k].p == StrutEnd(lib, pen, u[j].p, steps[k - 1].angle)
    decreases |steps|, 0
  {
    var u := Chain(lib, pen, start, steps);
    var rest := steps[1..];
    var u' := Chain(lib, pen, start, rest);
    ChainTailMarker(lib, pen, start, steps);
    ConsecutiveSkipMarker(u, u', j, k);
    var j' := if j == 0 then 0 else j - 1;
    ChainStep(lib, pen, start, rest, j', k - 1);
    assert steps[k - 1] == rest[k - 2];
  }

  /** Printability: in every unit, consecutive Points (markers skipped) are
      exactly one strut length apart. */
  lemma StrutLengths(lib: Lib, pen: Pen, start: Point, steps: seq<Step>)
    requires XY(start) && Pythagorean(lib)
    ensures var u := Chain(lib, pen, start, steps);
      AllXY(u) && forall j, k :: Consecutive(u, j, k) ==> Dist2(u[j].p, u[k].p) == pen.seg * pen.seg
  {
    var u := Chain(lib, pen, start, steps);
    ChainKinds(lib, pen, start, steps);
    forall j, k | Consecutive(u, j, k) ensures Dist2(u[j].p, u[k].p) == pen.seg * pen.seg {
      ChainStep(lib, pen, start, steps, j, k);
      PolarDistance(lib, u[j].p, pen.seg, Radians(Degrees(steps[k - 1].angle, pen)));
    }
  }

  /** The marker values of a table, in order. */
  function StepToggles(steps: seq<Step>): seq<bool>
  {
    if steps == [] then [] else (if steps[0].Toggle? then [steps[0].on] else []) + StepToggles(steps[1..])
  }

  lemma {:induction false} ChainFromToggles(lib: Lib, pen: Pen, cur: Point, steps: seq<Step>)
    requires XY(cur)
    ensures Toggles(ChainFrom(lib, pen, cur, steps)) == StepToggles(steps)
    decreases |steps|
  {
    if steps != [] {
      var r := ChainFrom(lib, pen, cur, steps);
      assert r == [r[0]] + r[1..];
      TogglesAppend([r[0]], r[1..]);
      match steps[0]
      case Strut(_, a) => ChainFromToggles(lib, pen, StrutEnd(lib, pen, cur, a), steps[1..]);
      case Toggle(_) => ChainFromToggles(lib, pen, cur, steps[1..]);
    }
  }

  /** The unit's markers are the table's markers, in order. */
  lemma ChainToggles(lib: Lib, pen: Pen, start: Point, steps: seq<Step>)
    requires XY(start)
    ensures Toggles(Chain(lib, pen, start, steps)) == StepToggles(steps)
  {
    TogglesAppend([P(start)], ChainFrom(lib, pen, start, steps));
    ChainFromToggles(lib, pen, start, steps);
  }

  /** Reading the table from index `i`, the next marker must have value `next`, markers keep
      alternating, and the table ends right after an "on" marker (or has none left to match). */
  predicate AltFrom(steps: seq<Step>, i: nat, next: bool)
    decreases |steps| - i
  {
    if i >= |steps| then !next
    else if steps[i].Toggle? then steps[i].on == next && AltFrom(steps, i + 1, !next)
    else AltFrom(steps, i + 1, next)
  }

  /** `AltFrom` from index `i` describes the marker values of the rest of the table. */
  lemma {:induction false} AltFromToggles(steps: seq<Step>, i: nat, next: bool)
    requires i <= |steps| && AltFrom(steps, i, next)
    ensures var t := StepToggles(steps[i..]);
      |t| % 2 == (if next then 1 else 0) && forall k :: 0 <= k < |t| ==> t[k] == (next == (k % 2 == 0))
    decreases |steps| - i
  {
    if i < |steps| {
      var rest := steps[i..];
      assert rest[0] == steps[i] && rest[1..] == steps[i + 1..];
      if steps[i].Toggle? {
        AltFromToggles(steps, i + 1, !next);
        var t' := StepToggles(steps[i + 1..]);
        var t := StepToggles(rest);
        assert t == [next] + t';
        forall k | 1 <= k < |t| ensures t[k] == (next == (k % 2 == 0)) {
          assert t[k] == t'[k - 1];
        }
      } else {
        AltFromToggles(steps, i + 1, next);
      }
    } else {
      assert steps[i..] == [];
    }
  }

  /** A table accepted by `AltFrom` from the start, expecting "off", has alternating markers. */
  lemma AltFromAlternates(steps: seq<Step>)
    requires AltFrom(steps, 0, false)
    ensures Alternates(StepToggles(steps))
  {
    AltFromToggles(steps, 0, false);
    assert steps[0..] == steps;
  }

  /** A table accepted by `AltFrom` yields units whose markers alternate, from any start. */
  lemma ChainAlternates(lib: Lib, pen: Pen, start: Point, steps: seq<Step>)
    requires XY(start) && AltFrom(steps, 0, false)
    ensures Alternates(Toggles(Chain(lib, pen, start, steps)))
  {
    AltFromAlternates(steps);
    ChainToggles(lib, pen, start, steps);
  }

  /** A Point position of the table is a Point of the unit with both planar coordinates. */
  lemma ChainPointXY(lib: Lib, pen: Pen, start: Point, steps: seq<Step>, i: int)
    requires XY(start) && PointAt(steps, i)
    ensures HasXY(Chain(lib, pen, start, steps), i)
  {
    ChainKinds(lib, pen, start, steps);
  }
}
