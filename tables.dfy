/** The unit tables of the four lattice families, transcribed from the sequence of
    `append` calls that builds each unit, and the facts about them that the unit
    builder and the marker lemmas need. In a table, `Strut(1, a)` is a polar step of
    one segment length from `unit[-1]`, `Strut(2, a)` the same from `unit[-2]`, and
    `Toggle(on)` an `Extruder(on)` marker; an angle `Angle(d, m, k)` is
    `d + m * dev_angle + k * alpha` degrees. */
module Tables {
  import opened Geometry
  import opened Units

  /** M1: three printed struts from the origin. */
  const M1Steps: seq<Step> := [
    Strut(1, Angle(0.0, 0.0, -0.5)), Strut(1, Angle(-60.0, 0.0, 0.5)), Strut(1, Angle(120.0, 0.0, -0.5))]

  /** M2 row 1: printed struts and travel hops, angles offset by the M2 deviation angle. */
  const M2Steps: seq<Step> := [
    Strut(1, Angle(90.0, 1.0, -1.0)), Strut(1, Angle(30.0, 1.0, 0.0)), Strut(1, Angle(-150.0, 1.0, -1.0)),
    Toggle(false), Strut(2, Angle(30.0, 1.0, -1.0)), Strut(1, Angle(-150.0, 1.0, 0.0)),
    Toggle(true), Strut(2, Angle(-90.0, 1.0, 0.0)), Strut(1, Angle(-30.0, 1.0, 0.0)),
    Strut(1, Angle(30.0, 1.0, 0.0)), Strut(1, Angle(90.0, 1.0, 0.0)), Strut(1, Angle(150.0, 1.0, 0.0)),
    Toggle(false), Strut(2, Angle(-30.0, 1.0, 0.0)), Toggle(true),
    Strut(2, Angle(150.0, 1.0, -1.0)), Toggle(false), Strut(2, Angle(-30.0, 1.0, -1.0)),
    Strut(1, Angle(-90.0, 1.0, 0.0)), Toggle(true)]

  /** M2 row 2: the separately built return unit. */
  const M2BackSteps: seq<Step> := [
    Strut(1, Angle(-90.0, 1.0, -1.0)), Strut(1, Angle(90.0, 1.0, 0.0)), Strut(1, Angle(150.0, 1.0, -1.0)),
    Toggle(false), Strut(2, Angle(-30.0, 1.0, -1.0)), Toggle(true),
    Strut(2, Angle(150.0, 1.0, 0.0)), Strut(1, Angle(-150.0, 1.0, -1.0)), Toggle(false),
    Strut(2, Angle(30.0, 1.0, -1.0)), Toggle(true), Strut(2, Angle(-150.0, 1.0, 0.0)),
    Strut(1, Angle(-90.0, 1.0, 0.0)), Strut(1, Angle(-30.0, 1.0, 0.0)), Strut(1, Angle(30.0, 1.0, 0.0)),
    Toggle(false), Strut(2, Angle(90.0, 1.0, 0.0)), Strut(1, Angle(150.0, 1.0, 0.0)),
    Strut(1, Angle(-150.0, 1.0, 0.0)), Toggle(true)]

  /** M3 before rotation: angles are fixed or depend on alpha only. */
  const M3Steps: seq<Step> := [
    Strut(1, Angle(120.0, 0.0, 0.0)), Strut(1, Angle(0.0, 0.0, 0.0)), Strut(1, Angle(180.0, 0.0, -1.0)),
    Toggle(false), Strut(2, Angle(0.0, 0.0, -1.0)), Toggle(true),
    Strut(2, Angle(-120.0, 0.0, 0.0)), Strut(1, Angle(60.0, 0.0, -1.0)), Strut(1, Angle(-120.0, 0.0, 0.0)),
    Strut(1, Angle(0.0, 0.0, 0.0)), Strut(1, Angle(120.0, 0.0, 0.0)), Toggle(false),
    Strut(2, Angle(-60.0, 0.0, 0.0)), Toggle(true), Strut(2, Angle(120.0, 0.0, -1.0)),
    Toggle(false), Strut(2, Angle(-60.0, 0.0, 0.0)), Toggle(true)]

  /** M4 row 1: angles offset by minus the M4 deviation angle. */
  const M4Steps: seq<Step> := [
    Strut(1, Angle(90.0, -1.0, 0.0)), Strut(1, Angle(270.0, -1.0, -1.0)), Strut(1, Angle(180.0, -1.0, 0.0)),
    Toggle(false), Strut(2, Angle(0.0, -1.0, 0.0)), Toggle(true),
    Strut(2, Angle(180.0, -1.0, -1.0)), Strut(1, Angle(90.0, -1.0, -1.0)), Strut(1, Angle(0.0, -1.0, -1.0)),
    Toggle(false), Strut(2, Angle(-90.0, -1.0, -1.0)), Strut(1, Angle(-180.0, -1.0, -1.0)),
    Toggle(true)]

  /** M4 row 2: the separately built return unit. */
  const M4BackSteps: seq<Step> := [
    Strut(1, Angle(-90.0, -1.0, 0.0)), Strut(1, Angle(90.0, -1.0, -1.0)), Strut(1, Angle(0.0, -1.0, -1.0)),
    Strut(1, Angle(-90.0, -1.0, -1.0)), Strut(1, Angle(180.0, -1.0, 0.0)), Toggle(false),
    Strut(2, Angle(0.0, -1.0, 0.0)), Toggle(true), Strut(2, Angle(180.0, -1.0, -1.0)),
    Toggle(false), Strut(2, Angle(90.0, -1.0, -1.0)), Strut(1, Angle(0.0, -1.0, -1.0)),
    Toggle(true)]

  /** Every step of the M1 table reads the most recent Point. */
  lemma M1Reads()
    ensures ReadsLastPoint(M1Steps)
  {
    forall i | 0 <= i < |M1Steps| ensures ReadsLastPointAt(M1Steps, i) {
      assert i == 0 || i == 1 || i == 2;
    }
  }

  /** The M1 table has no markers, which `AltFrom` accepts. */
  lemma M1Alternates()
    ensures AltFrom(M1Steps, 0, false)
  {
    assert AltFrom(M1Steps, 3, false);
    assert AltFrom(M1Steps, 2, false);
    assert AltFrom(M1Steps, 1, false);
    assert AltFrom(M1Steps, 0, false);
  }

  /** Every step of the M2 table reads the most recent Point. */
  lemma M2Reads()
    ensures ReadsLastPoint(M2Steps)
  {
    forall i | 0 <= i < |M2Steps| ensures ReadsLastPointAt(M2Steps, i) {
      assert i == 0 || i == 1 || i == 2 || i == 3 || i == 4 || i == 5 || i == 6 || i == 7 || i == 8 || i == 9 || i == 10 || i == 11 || i == 12 || i == 13 || i == 14 || i == 15 || i == 16 || i == 17 || i == 18 || i == 19;
    }
  }

  /** The M2 unit entries read by the offsets and the row-2 start are Points. */
  lemma M2Points()
    ensures PointAt(M2Steps, 1) && PointAt(M2Steps, 3) && PointAt(M2Steps, 8) && PointAt(M2Steps, 9)
    ensures PointAt(M2Steps, 16) && PointAt(M2Steps, 19)
  {
    assert M2Steps[0].Strut? && M2Steps[2].Strut? && M2Steps[7].Strut?;
    assert M2Steps[8].Strut? && M2Steps[15].Strut? && M2Steps[18].Strut?;
  }

  /** The markers of the M2 table alternate off, on, ..., ending on. */
  lemma M2Alternates()
    ensures AltFrom(M2Steps, 0, false)
  {
    assert AltFrom(M2Steps, 20, false);
    assert AltFrom(M2Steps, 19, true);
    assert AltFrom(M2Steps, 18, true);
    assert AltFrom(M2Steps, 17, true);
    assert AltFrom(M2Steps, 16, false);
    assert AltFrom(M2Steps, 15, false);
    assert AltFrom(M2Steps, 14, true);
    assert AltFrom(M2Steps, 13, true);
    assert AltFrom(M2Steps, 12, false);
    assert AltFrom(M2Steps, 11, false);
    assert AltFrom(M2Steps, 10, false);
    assert AltFrom(M2Steps, 9, false);
    assert AltFrom(M2Steps, 8, false);
    assert AltFrom(M2Steps, 7, false);
    assert AltFrom(M2Steps, 6, true);
    assert AltFrom(M2Steps, 5, true);
    assert AltFrom(M2Steps, 4, true);
    assert AltFrom(M2Steps, 3, false);
    assert AltFrom(M2Steps, 2, false);
    assert AltFrom(M2Steps, 1, false);
    assert AltFrom(M2Steps, 0, false);
  }

  /** Every step of the M2Back table reads the most recent Point. */
  lemma M2BackReads()
    ensures ReadsLastPoint(M2BackSteps)
  {
    forall i | 0 <= i < |M2BackSteps| ensures ReadsLastPointAt(M2BackSteps, i) {
      assert i == 0 || i == 1 || i == 2 || i == 3 || i == 4 || i == 5 || i == 6 || i == 7 || i == 8 || i == 9 || i == 10 || i == 11 || i == 12 || i == 13 || i == 14 || i == 15 || i == 16 || i == 17 || i == 18 || i == 19;
    }
  }

  /** The markers of the M2Back table alternate off, on, ..., ending on. */
  lemma M2BackAlternates()
    ensures AltFrom(M2BackSteps, 0, false)
  {
    assert AltFrom(M2BackSteps, 20, false);
    assert AltFrom(M2BackSteps, 19, true);
    assert AltFrom(M2BackSteps, 18, true);
    assert AltFrom(M2BackSteps, 17, true);
    assert AltFrom(M2BackSteps, 16, true);
    assert AltFrom(M2BackSteps, 15, false);
    assert AltFrom(M2BackSteps, 14, false);
    assert AltFrom(M2BackSteps, 13, false);
    assert AltFrom(M2BackSteps, 12, false);
    assert AltFrom(M2BackSteps, 11, false);
    assert AltFrom(M2BackSteps, 10, true);
    assert AltFrom(M2BackSteps, 9, true);
    assert AltFrom(M2BackSteps, 8, false);
    assert AltFrom(M2BackSteps, 7, false);
    assert AltFrom(M2BackSteps, 6, false);
    assert AltFrom(M2BackSteps, 5, true);
    assert AltFrom(M2BackSteps, 4, true);
    assert AltFrom(M2BackSteps, 3, false);
    assert AltFrom(M2BackSteps, 2, false);
    assert AltFrom(M2BackSteps, 1, false);
    assert AltFrom(M2BackSteps, 0, false);
  }

  /** Every step of the M3 table reads the most recent Point. */
  lemma M3Reads()
    ensures ReadsLastPoint(M3Steps)
  {
    forall i | 0 <= i < |M3Steps| ensures ReadsLastPointAt(M3Steps, i) {
      assert i == 0 || i == 1 || i == 2 || i == 3 || i == 4 || i == 5 || i == 6 || i == 7 || i == 8 || i == 9 || i == 10 || i == 11 || i == 12 || i == 13 || i == 14 || i == 15 || i == 16 || i == 17;
    }
  }

  /** The M3 unit entries read by the rotation, the offsets and the row-2 unit are Points. */
  lemma M3Points()
    ensures PointAt(M3Steps, 1) && PointAt(M3Steps, 2) && PointAt(M3Steps, 3) && PointAt(M3Steps, 8)
    ensures PointAt(M3Steps, 9) && PointAt(M3Steps, 10) && PointAt(M3Steps, 11)
    ensures PointAt(M3Steps, 15) && PointAt(M3Steps, 17)
  {
    assert M3Steps[0].Strut? && M3Steps[1].Strut? && M3Steps[2].Strut? && M3Steps[7].Strut?;
    assert M3Steps[8].Strut? && M3Steps[9].Strut? && M3Steps[10].Strut?;
    assert M3Steps[14].Strut? && M3Steps[16].Strut?;
  }

  /** The markers of the M3 table alternate off, on, ..., ending on. */
  lemma M3Alternates()
    ensures AltFrom(M3Steps, 0, false)
  {
    assert AltFrom(M3Steps, 18, false);
    assert AltFrom(M3Steps, 17, true);
    assert AltFrom(M3Steps, 16, true);
    assert AltFrom(M3Steps, 15, false);
    assert AltFrom(M3Steps, 14, false);
    assert AltFrom(M3Steps, 13, true);
    assert AltFrom(M3Steps, 12, true);
    assert AltFrom(M3Steps, 11, false);
    assert AltFrom(M3Steps, 10, false);
    assert AltFrom(M3Steps, 9, false);
    assert AltFrom(M3Steps, 8, false);
    assert AltFrom(M3Steps, 7, false);
    assert AltFrom(M3Steps, 6, false);
    assert AltFrom(M3Steps, 5, true);
    assert AltFrom(M3Steps, 4, true);
    assert AltFrom(M3Steps, 3, false);
    assert AltFrom(M3Steps, 2, false);
    assert AltFrom(M3Steps, 1, false);
    assert AltFrom(M3Steps, 0, false);
  }

  /** Every step of the M4 table reads the most recent Point. */
  lemma M4Reads()
    ensures ReadsLastPoint(M4Steps)
  {
    forall i | 0 <= i < |M4Steps| ensures ReadsLastPointAt(M4Steps, i) {
      assert i == 0 || i == 1 || i == 2 || i == 3 || i == 4 || i == 5 || i == 6 || i == 7 || i == 8 || i == 9 || i == 10 || i == 11 || i == 12;
    }
  }

  /** The M4 unit entries read by the offsets and the row-2 start are Points. */
  lemma M4Points()
    ensures PointAt(M4Steps, 1) && PointAt(M4Steps, 3) && PointAt(M4Steps, 5) && PointAt(M4Steps, 7)
    ensures PointAt(M4Steps, 8) && PointAt(M4Steps, 12)
  {
    assert M4Steps[0].Strut? && M4Steps[2].Strut? && M4Steps[4].Strut? && M4Steps[6].Strut?;
    assert M4Steps[7].Strut? && M4Steps[11].Strut?;
  }

  /** The markers of the M4 table alternate off, on, ..., ending on. */
  lemma M4Alternates()
    ensures AltFrom(M4Steps, 0, false)
  {
    assert AltFrom(M4Steps, 13, false);
    assert AltFrom(M4Steps, 12, true);
    assert AltFrom(M4Steps, 11, true);
    assert AltFrom(M4Steps, 10, true);
    assert AltFrom(M4Steps, 9, false);
    assert AltFrom(M4Steps, 8, false);
    assert AltFrom(M4Steps, 7, false);
    assert AltFrom(M4Steps, 6, false);
    assert AltFrom(M4Steps, 5, true);
    assert AltFrom(M4Steps, 4, true);
    assert AltFrom(M4Steps, 3, false);
    assert AltFrom(M4Steps, 2, false);
    assert AltFrom(M4Steps, 1, false);
    assert AltFrom(M4Steps, 0, false);
  }

  /** Every step of the M4Back table reads the most recent Point. */
  lemma M4BackReads()
    ensures ReadsLastPoint(M4BackSteps)
  {
    forall i | 0 <= i < |M4BackSteps| ensures ReadsLastPointAt(M4BackSteps, i) {
      assert i == 0 || i == 1 || i == 2 || i == 3 || i == 4 || i == 5 || i == 6 || i == 7 || i == 8 || i == 9 || i == 10 || i == 11 || i == 12;
    }
  }

  /** The markers of the M4Back table alternate off, on, ..., ending on. */
  lemma M4BackAlternates()
    ensures AltFrom(M4BackSteps, 0, false)
  {
    assert AltFrom(M4BackSteps, 13, false);
    assert AltFrom(M4BackSteps, 12, true);
    assert AltFrom(M4BackSteps, 11, true);
    assert AltFrom(M4BackSteps, 10, true);
    assert AltFrom(M4BackSteps, 9, false);
    assert AltFrom(M4BackSteps, 8, false);
    assert AltFrom(M4BackSteps, 7, true);
    assert AltFrom(M4BackSteps, 6, true);
    assert AltFrom(M4BackSteps, 5, false);
    assert AltFrom(M4BackSteps, 4, false);
    assert AltFrom(M4BackSteps, 3, false);
    assert AltFrom(M4BackSteps, 2, false);
    assert AltFrom(M4BackSteps, 1, false);
    assert AltFrom(M4BackSteps, 0, false);
  }

}
