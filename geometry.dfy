/** Geometry primitives the lattice generator takes from the FullControl library:
    points with optional coordinates, tagged waypoint sequences, translation
    (`fc.move`, with and without copies), the polar step (`fc.polar_to_point`),
    the points-only preview filter (`fc.points_only`) and the foreign maps and
    floating-point functions, which are supplied as a `Lib` value. */
module Geometry {

  datatype Option<T> = None | Some(value: T)

  /** A coordinate of a Point or a component of a Vector: absent when it was left out. */
  datatype Coord = Absent | At(value: real)

  /** A waypoint. A coordinate that is `Absent` was left out when the Point was
      made; the printer keeps its previous value on that axis. */
  datatype Point = Point(x: Coord, y: Coord, z: Coord)

  /** A displacement; an `Absent` component leaves that axis alone. */
  datatype Vector = Vector(x: Coord, y: Coord, z: Coord)

  /** One entry of a waypoint sequence: a Point or an extruder on/off marker. */
  datatype Entry = P(p: Point) | Extruder(on: bool)

  const Origin: Point := Point(At(0.0), At(0.0), At(0.0))

  /** The value of `math.pi`. */
  const Pi: real := 3.141592653589793

  function Radians(degrees: real): real { degrees * Pi / 180.0 }

  /** What the generator uses from outside its own file, as values: the
      floating-point `cos`, `sin` and `atan`; the two closed-form deviation
      angles (in degrees, as functions of alpha); the per-point effect of
      `fclab.reflectXYpolar_list` about (0, 0) at angle 0 (the list itself is
      read backwards, see `ReflectList`); and the per-point
      effect of `fc.move_polar` with radius 0, taking the centre (cx, cy), the
      angle and a point's (x, y) to the moved (x, y). */
  datatype Lib = Lib(
    cos: real -> real,
    sin: real -> real,
    atan: real -> real,
    devM2: real -> real,
    devM4: real -> real,
    reflect: Point -> Point,
    movePolar: (real, real, real, real, real) -> (real, real))

  /** The identity cos^2 + sin^2 = 1, assumed of the supplied functions where a
      strut length is concerned. */
  ghost predicate Pythagorean(lib: Lib)
  {
    forall t :: lib.cos(t) * lib.cos(t) + lib.sin(t) * lib.sin(t) == 1.0
  }

  /** A Point with both planar coordinates present. */
  predicate XY(p: Point) { p.x.At? && p.y.At? }

  predicate IsXY(e: Entry) { e.P? && XY(e.p) }

  /** Entry `i` of `s` exists and is a Point with x and y present. */
  predicate HasXY(s: seq<Entry>, i: int) { 0 <= i < |s| && IsXY(s[i]) }

  /** Every Point of `s` has x and y present. */
  predicate AllXY(s: seq<Entry>) { forall k :: 0 <= k < |s| && s[k].P? ==> XY(s[k].p) }

  function X(e: Entry): real requires IsXY(e) { e.p.x.value }
  function Y(e: Entry): real requires IsXY(e) { e.p.y.value }

  /** Squared length of the planar displacement `(dx, dy)`. */
  function Sq2(dx: real, dy: real): real { dx * dx + dy * dy }

  /** Squared planar distance between two Points. */
  function Dist2(p: Point, q: Point): real
    requires XY(p) && XY(q)
  {
    Sq2(q.x.value - p.x.value, q.y.value - p.y.value)
  }

  // ---------------------------------------------------------------- translation

  function Shift(c: Coord, d: Coord): (r: Coord)
    ensures r.At? == c.At?
    ensures c.At? && d.Absent? ==> r == c
  {
    if c.At? && d.At? then At(c.value + d.value) else c
  }

  /** `fc.move` of one Point: only coordinates present in both the Point and
      the Vector change. */
  function Translate(p: Point, v: Vector): (q: Point)
    ensures q.x.At? == p.x.At? && q.y.At? == p.y.At? && q.z.At? == p.z.At?
  {
    Point(Shift(p.x, v.x), Shift(p.y, v.y), Shift(p.z, v.z))
  }

  /** A coordinate the Vector leaves out, or that the Point leaves out, is not changed. */
  lemma TranslateKeeps(p: Point, v: Vector)
    ensures var q := Translate(p, v);
      (v.x.Absent? || p.x.Absent? ==> q.x == p.x) &&
      (v.y.Absent? || p.y.Absent? ==> q.y == p.y) &&
      (v.z.Absent? || p.z.Absent? ==> q.z == p.z)
  {
  }

  /** `fc.move` of one entry: markers are left as they are. */
  function MoveEntry(e: Entry, v: Vector): (r: Entry)
    ensures r.P? == e.P? && (e.P? ==> r.p == Translate(e.p, v))
    ensures e.Extruder? ==> r == e
  {
    match e
    case P(p) => P(Translate(p, v))
    case Extruder(_) => e
  }

  /** `fc.move(steps, v)`: a new list, entry by entry. */
  function Move(s: seq<Entry>, v: Vector): (r: seq<Entry>)
    ensures |r| == |s|
    ensures forall k :: 0 <= k < |s| ==> r[k].P? == s[k].P? && (s[k].Extruder? ==> r[k] == s[k])
  {
    seq(|s|, k requires 0 <= k < |s| => MoveEntry(s[k], v))
  }

  /** `Vector(x = v.x * i, ...)`: the displacement of copy `i`. */
  function Scale(v: Vector, i: int): Vector
  {
    Vector(
      if v.x.At? then At(v.x.value * i as real) else Absent,
      if v.y.At? then At(v.y.value * i as real) else Absent,
      if v.z.At? then At(v.z.value * i as real) else Absent)
  }

  /** `n` copies of `s` in increasing copy order, copy `i` moved by `shift(i)`;
      no copies when `n` is not positive, as with Python's `range(n)`. */
  function Copies(s: seq<Entry>, n: int, shift: int -> Vector): (r: seq<Entry>)
    ensures |r| == if n <= 0 then 0 else n * |s|
    decreases n
  {
    if n <= 0 then [] else Copies(s, n - 1, shift) + Move(s, shift(n - 1))
  }

  /** `fc.move(steps, v, copy=True, copy_quantity=n)`: copy `i` is moved by `i * v`. */
  function CopyMove(s: seq<Entry>, v: Vector, n: int): seq<Entry>
  {
    Copies(s, n, i => Scale(v, i))
  }

  function VX(dx: real): Vector { Vector(At(dx), Absent, Absent) }
  function VY(dy: real): Vector { Vector(Absent, At(dy), Absent) }
  function VZ(dz: real): Vector { Vector(Absent, Absent, At(dz)) }

  // ---------------------------------------------------------------- polar step

  /** `fc.polar_to_point(c, r, t)`: the point at distance `r` from `c` in
      direction `t` (radians), at the height of `c`. */
  function PolarToPoint(lib: Lib, c: Point, r: real, t: real): (q: Point)
    requires XY(c)
    ensures XY(q) && q.z == c.z
  {
    Point(At(c.x.value + r * lib.cos(t)), At(c.y.value + r * lib.sin(t)), c.z)
  }

  // ---------------------------------------------------------------- per-point maps

  /** A foreign map applied to every Point; markers pass through. */
  function MapPoints(f: Point -> Point, s: seq<Entry>): (r: seq<Entry>)
    ensures |r| == |s|
    ensures forall k :: 0 <= k < |s| ==> r[k].P? == s[k].P? && (s[k].Extruder? ==> r[k] == s[k])
  {
    seq(|s|, k requires 0 <= k < |s| => if s[k].P? then P(f(s[k].p)) else s[k])
  }

  /** The entries of `s` from last to first. */
  function Reversed(s: seq<Entry>): (r: seq<Entry>)
    ensures |r| == |s| && forall k :: 0 <= k < |s| ==> r[k] == s[|s| - 1 - k]
  {
    if s == [] then [] else Reversed(s[1..]) + [s[0]]
  }

  /** `fclab.reflectXYpolar_list(s, ...)`: the list read backwards, every Point through
      the supplied reflection, so that the reflected row starts at the reflection of the
      row's last entry and the print runs to the end of a row and back. */
  function ReflectList(f: Point -> Point, s: seq<Entry>): (r: seq<Entry>)
    ensures |r| == |s|
    ensures forall k :: 0 <= k < |s| ==>
      var e := s[|s| - 1 - k];
      r[k].P? == e.P? && (e.P? ==> r[k].p == f(e.p)) && (e.Extruder? ==> r[k] == e)
  {
    MapPoints(f, Reversed(s))
  }

  /** `fc.move_polar(s, centre, 0, angle)`: every Point's (x, y) goes through
      the supplied `movePolar`, its z and every marker stay. */
  function MovePolar(lib: Lib, s: seq<Entry>, cx: real, cy: real, angle: real): (r: seq<Entry>)
    requires AllXY(s)
    ensures |r| == |s| && AllXY(r)
    ensures forall k :: 0 <= k < |s| ==> r[k].P? == s[k].P? && (s[k].Extruder? ==> r[k] == s[k])
  {
    seq(|s|, k requires 0 <= k < |s| =>
      if s[k].P? then
        var xy := lib.movePolar(cx, cy, angle, s[k].p.x.value, s[k].p.y.value);
        P(Point(At(xy.0), At(xy.1), s[k].p.z))
      else s[k])
  }

  /** `movePolar` keeps planar distances: it is a rigid motion. */
  ghost predicate Rigid(lib: Lib)
  {
    forall cx, cy, a, x1, y1, x2, y2 ::
      var p := lib.movePolar(cx, cy, a, x1, y1);
      var q := lib.movePolar(cx, cy, a, x2, y2);
      Sq2(q.0 - p.0, q.1 - p.1) == Sq2(x2 - x1, y2 - y1)
  }

  /** Under a rigid `movePolar`, `MovePolar` keeps the distance between any two Points. */
  lemma MovePolarDist(lib: Lib, s: seq<Entry>, cx: real, cy: real, a: real, j: int, k: int)
    requires Rigid(lib) && AllXY(s) && 0 <= j < |s| && 0 <= k < |s| && s[j].P? && s[k].P?
    ensures var r := MovePolar(lib, s, cx, cy, a);
      XY(r[j].p) && XY(r[k].p) && Dist2(r[j].p, r[k].p) == Dist2(s[j].p, s[k].p)
  {
    var r := MovePolar(lib, s, cx, cy, a);
    var p := lib.movePolar(cx, cy, a, s[j].p.x.value, s[j].p.y.value);
    var q := lib.movePolar(cx, cy, a, s[k].p.x.value, s[k].p.y.value);
    assert r[j].p.x.value == p.0 && r[j].p.y.value == p.1;
    assert r[k].p.x.value == q.0 && r[k].p.y.value == q.1;
    assert Sq2(q.0 - p.0, q.1 - p.1) == Dist2(s[j].p, s[k].p);
  }

  // ---------------------------------------------------------------- markers and preview

  /** The on/off values of the markers of `s`, in order. */
  function Toggles(s: seq<Entry>): seq<bool>
  {
    if s == [] then [] else (if s[0].Extruder? then [s[0].on] else []) + Toggles(s[1..])
  }

  /** Markers strictly alternate off, on, off, on, ... and end with on. */
  predicate Alternates(t: seq<bool>)
  {
    |t| % 2 == 0 && forall i :: 0 <= i < |t| ==> t[i] == (i % 2 == 1)
  }

  /** The extrusion state after `s`, from the initial state "on". */
  function ExtrudingAfter(s: seq<Entry>): bool
  {
    var t := Toggles(s);
    t == [] || t[|t| - 1]
  }

  /** `fc.points_only`: the Points of `s`, in order. */
  function PointsOnly(s: seq<Entry>): (r: seq<Entry>)
    ensures |r| <= |s|
    ensures forall k :: 0 <= k < |r| ==> r[k].P?
  {
    if s == [] then [] else (if s[0].P? then [s[0]] else []) + PointsOnly(s[1..])
  }

  // ---------------------------------------------------------------- lemmas

  lemma MulMono(a: int, b: int, m: int)
    requires a <= b && 0 <= m
    ensures a * m <= b * m
  {
    assert b * m - a * m == (b - a) * m;
  }

  /** Entry `i * |s| + k` of the copies is entry `k` of `s` moved by `shift(i)`. */
  lemma {:induction false} CopiesAt(s: seq<Entry>, n: int, shift: int -> Vector, i: int, k: int)
    requires 0 <= i < n && 0 <= k < |s|
    ensures 0 <= i * |s| && i * |s| + k < |Copies(s, n, shift)|
    ensures Copies(s, n, shift)[i * |s| + k] == MoveEntry(s[k], shift(i))
    decreases n
  {
    var m := |s|;
    MulMono(0, i, m);
    assert (n - 1) * m + m == n * m;
    if i < n - 1 {
      MulMono(i + 1, n - 1, m);
      CopiesAt(s, n - 1, shift, i, k);
    } else {
      assert i * m + k == (n - 1) * m + k;
    }
  }

  /** The same for `fc.move` with copies: copy `i` is moved by `i * v`. */
  lemma CopyMoveAt(s: seq<Entry>, v: Vector, n: int, i: int, k: int)
    requires 0 <= i < n && 0 <= k < |s|
    ensures |CopyMove(s, v, n)| == n * |s| && 0 <= i * |s| && i * |s| + k < n * |s|
    ensures CopyMove(s, v, n)[i * |s| + k] == MoveEntry(s[k], Scale(v, i))
  {
    CopiesAt(s, n, i => Scale(v, i), i, k);
  }

  /** Copy `i` of a move along one axis is a move of `i` times the distance along that axis. */
  lemma ScaleAxes(d: real, i: int)
    ensures Scale(VX(d), i) == VX(d * i as real)
    ensures Scale(VY(d), i) == VY(d * i as real)
    ensures Scale(VZ(d), i) == VZ(d * i as real)
  {
    var sx, sy, sz := Scale(VX(d), i), Scale(VY(d), i), Scale(VZ(d), i);
    assert sx.x == At(d * i as real) && sx.y == Absent && sx.z == Absent;
    assert sy.x == Absent && sy.y == At(d * i as real) && sy.z == Absent;
    assert sz.x == Absent && sz.y == Absent && sz.z == At(d * i as real);
  }

  /** The polar step moves exactly `r` away from where it starts. */
  lemma PolarDistance(lib: Lib, c: Point, r: real, t: real)
    requires XY(c) && Pythagorean(lib)
    ensures Dist2(c, PolarToPoint(lib, c, r, t)) == r * r
  {
    var co, si := lib.cos(t), lib.sin(t);
    var q := PolarToPoint(lib, c, r, t);
    assert q.x.value - c.x.value == r * co;
    assert q.y.value - c.y.value == r * si;
    calc {
      Dist2(c, q);
      (r * co) * (r * co) + (r * si) * (r * si);
      (r * r) * (co * co + si * si);
      { assert co * co + si * si == 1.0; }
      r * r;
    }
  }

  /** The markers of `s` from index `i` on, by index rather than by slicing. */
  function TogglesFrom(s: seq<Entry>, i: nat): seq<bool>
    decreases |s| - i
  {
    if i >= |s| then [] else (if s[i].Extruder? then [s[i].on] else []) + TogglesFrom(s, i + 1)
  }

  /** One step of `TogglesFrom`: a Point adds nothing, a marker adds its value. */
  lemma TogglesFromStep(s: seq<Entry>, i: nat)
    requires i < |s|
    ensures s[i].P? ==> TogglesFrom(s, i) == TogglesFrom(s, i + 1)
    ensures s[i].Extruder? ==> TogglesFrom(s, i) == [s[i].on] + TogglesFrom(s, i + 1)
  {
  }

  lemma {:induction false} TogglesFromSuffix(s: seq<Entry>, i: nat)
    requires i <= |s|
    ensures TogglesFrom(s, i) == Toggles(s[i..])
    decreases |s| - i
  {
    if i < |s| {
      TogglesFromSuffix(s, i + 1);
      assert s[i..][1..] == s[i + 1..];
    }
  }

  lemma {:induction false} TogglesAppend(a: seq<Entry>, b: seq<Entry>)
    ensures Toggles(a + b) == Toggles(a) + Toggles(b)
  {
    if a == [] {
      assert a + b == b;
    } else {
      var head := if a[0].Extruder? then [a[0].on] else [];
      assert (a + b)[0] == a[0];
      assert (a + b)[1..] == a[1..] + b;
      TogglesAppend(a[1..], b);
      calc {
        Toggles(a + b);
        head + Toggles(a[1..] + b);
        head + (Toggles(a[1..]) + Toggles(b));
        (head + Toggles(a[1..])) + Toggles(b);
        Toggles(a) + Toggles(b);
      }
    }
  }

  /** A map that keeps every marker where it is keeps the marker sequence. */
  lemma {:induction false} TogglesKeptByMarkerPreservingMap(s: seq<Entry>, r: seq<Entry>)
    requires |r| == |s|
    requires forall k :: 0 <= k < |s| ==> r[k].P? == s[k].P? && (s[k].Extruder? ==> r[k] == s[k])
    ensures Toggles(r) == Toggles(s)
  {
    if s != [] {
      TogglesKeptByMarkerPreservingMap(s[1..], r[1..]);
    }
  }

  /** A list has no markers exactly when every entry is a Point. */
  lemma {:induction false} TogglesNone(s: seq<Entry>)
    ensures Toggles(s) == [] <==> forall k :: 0 <= k < |s| ==> s[k].P?
  {
    if s != [] {
      TogglesNone(s[1..]);
      if forall k :: 0 <= k < |s| ==> s[k].P? {
        assert forall k :: 0 <= k < |s| - 1 ==> s[1..][k] == s[k + 1];
      }
      if Toggles(s) == [] {
        forall k | 0 <= k < |s| ensures s[k].P? {
          if k > 0 {
            assert s[k] == s[1..][k - 1];
          }
        }
      }
    }
  }

  lemma TogglesMove(s: seq<Entry>, v: Vector)
    ensures Toggles(Move(s, v)) == Toggles(s)
  {
    TogglesKeptByMarkerPreservingMap(s, Move(s, v));
  }

  lemma AlternatesAppend(a: seq<bool>, b: seq<bool>)
    requires Alternates(a) && Alternates(b)
    ensures Alternates(a + b)
  {
    var c := a + b;
    var h := |a| / 2;
    assert |a| == 2 * h;
    ParityShift(|b|, h);
    forall i | 0 <= i < |c| ensures c[i] == (i % 2 == 1) {
      if i >= |a| {
        assert c[i] == b[i - |a|];
        ParityShift(i - |a|, h);
      }
    }
  }

  /** Shifting by an even amount keeps parity. */
  lemma ParityShift(j: int, h: int)
    ensures (j + 2 * h) % 2 == j % 2
  {
  }

  /** Copies of a sequence whose markers alternate have alternating markers. */
  lemma {:induction false} TogglesCopies(s: seq<Entry>, n: int, shift: int -> Vector)
    requires Alternates(Toggles(s))
    ensures Alternates(Toggles(Copies(s, n, shift)))
    decreases n
  {
    if n > 0 {
      TogglesCopies(s, n - 1, shift);
      TogglesAppend(Copies(s, n - 1, shift), Move(s, shift(n - 1)));
      TogglesMove(s, shift(n - 1));
      AlternatesAppend(Toggles(Copies(s, n - 1, shift)), Toggles(s));
    }
  }

  /** Copies of a list without markers have no markers. */
  lemma {:induction false} TogglesCopiesNone(s: seq<Entry>, n: int, shift: int -> Vector)
    requires Toggles(s) == []
    ensures Toggles(Copies(s, n, shift)) == []
    decreases n
  {
    if n > 0 {
      TogglesCopiesNone(s, n - 1, shift);
      TogglesAppend(Copies(s, n - 1, shift), Move(s, shift(n - 1)));
      TogglesMove(s, shift(n - 1));
    }
  }

  /** Alternating markers leave the extruder on, as it was at the start. */
  lemma AlternatesEndsOn(s: seq<Entry>)
    requires Alternates(Toggles(s))
    ensures ExtrudingAfter(s)
  {
    var t := Toggles(s);
    if t != [] {
      assert (|t| - 1) % 2 == 1;
    }
  }

  lemma {:induction false} PointsOnlyAppend(a: seq<Entry>, b: seq<Entry>)
    ensures PointsOnly(a + b) == PointsOnly(a) + PointsOnly(b)
  {
    if a == [] {
      assert a + b == b;
    } else {
      assert (a + b)[1..] == a[1..] + b;
      PointsOnlyAppend(a[1..], b);
    }
  }

  /** The preview filter only drops entries: a sequence of Points is left as is. */
  lemma {:induction false} PointsOnlyKeepsPoints(s: seq<Entry>)
    requires forall k :: 0 <= k < |s| ==> s[k].P?
    ensures PointsOnly(s) == s
  {
    if s != [] {
      PointsOnlyKeepsPoints(s[1..]);
    }
  }

  /** A marker on its own is dropped by the filter. */
  lemma PointsOnlyMarker(on: bool)
    ensures PointsOnly([Extruder(on)]) == []
  { }

  /** The preview filter has no markers left. */
  lemma {:induction false} PointsOnlyNoMarkers(s: seq<Entry>)
    ensures Toggles(PointsOnly(s)) == []
  {
    if s != [] {
      var head := if s[0].P? then [s[0]] else [];
      TogglesAppend(head, PointsOnly(s[1..]));
      PointsOnlyNoMarkers(s[1..]);
    }
  }

  /** Filtering commutes with translation. */
  lemma {:induction false} PointsOnlyMove(s: seq<Entry>, v: Vector)
    ensures PointsOnly(Move(s, v)) == Move(PointsOnly(s), v)
  {
    if s != [] {
      assert Move(s, v) == [MoveEntry(s[0], v)] + Move(s[1..], v);
      PointsOnlyAppend([MoveEntry(s[0], v)], Move(s[1..], v));
      PointsOnlyMove(s[1..], v);
      assert s == [s[0]] + s[1..];
      PointsOnlyAppend([s[0]], s[1..]);
      if s[0].P? {
        assert PointsOnly(s) == [s[0]] + PointsOnly(s[1..]);
        assert Move(PointsOnly(s), v) == [MoveEntry(s[0], v)] + Move(PointsOnly(s[1..]), v);
      } else {
        assert PointsOnly([MoveEntry(s[0], v)]) == [];
      }
    }
  }

  /** Filtering commutes with copying. */
  lemma {:induction false} PointsOnlyCopies(s: seq<Entry>, n: int, shift: int -> Vector)
    ensures PointsOnly(Copies(s, n, shift)) == Copies(PointsOnly(s), n, shift)
    decreases n
  {
    if n > 0 {
      PointsOnlyAppend(Copies(s, n - 1, shift), Move(s, shift(n - 1)));
      PointsOnlyCopies(s, n - 1, shift);
      PointsOnlyMove(s, shift(n - 1));
    }
  }
}
