/** Properties of the dashboard rules: how efficiency depends on the panel
    angle, what a reset does, what holds after any sequence of ticks, and
    worked example ticks. */
module SolarProperties {
  import opened Rounding
  import opened SolarPanel

  /** What the model needs of `cos(radians(d))` as a function of whole
      degrees d: values in [-1, 1], 1 at 0, even, non-increasing on
      [0, 90] and 0 at 90. */
  ghost predicate CosineLike(cos: int -> real)
  {
    && (forall d :: -1.0 <= cos(d) <= 1.0)
    && cos(0) == 1.0
    && cos(90) == 0.0
    && (forall d :: cos(-d) == cos(d))
    && (forall d1, d2 :: 0 <= d1 <= d2 <= 90 ==> cos(d2) <= cos(d1))
  }

  /** Distance of an angle from the optimal 90 degrees. */
  function Distance(angle: int): nat
  {
    if angle < OptimalAngle then OptimalAngle - angle else angle - OptimalAngle
  }

  // ---- efficiency as a function of the angle ----

  lemma EfficiencyBounded(cos: int -> real, angle: int)
    requires forall d :: -1.0 <= cos(d) <= 1.0
    ensures 0.0 <= Efficiency(cos, angle) <= 100.0
  {
  }

  lemma OptimumIsFullPower(cos: int -> real)
    requires CosineLike(cos)
    ensures Efficiency(cos, OptimalAngle) == 100.0
  {
    assert IsTenth(100.0);
    Round1Exact(100.0);
  }

  lemma EfficiencySymmetric(cos: int -> real, d: int)
    requires CosineLike(cos)
    ensures Efficiency(cos, OptimalAngle - d) == Efficiency(cos, OptimalAngle + d)
  {
    assert cos(-d) == cos(d);
  }

  /** Moving the panel further from 90 degrees never raises the efficiency. */
  lemma EfficiencyFallsWithDistance(cos: int -> real, a1: int, a2: int)
    requires CosineLike(cos)
    requires 0 <= a1 <= 180 && 0 <= a2 <= 180
    requires Distance(a1) <= Distance(a2)
    ensures Efficiency(cos, a2) <= Efficiency(cos, a1)
  {
    var d1: int, d2: int := Distance(a1), Distance(a2);
    assert cos(a1 - OptimalAngle) == cos(d1) by {
      assert cos(-d1) == cos(d1);
    }
    assert cos(a2 - OptimalAngle) == cos(d2) by {
      assert cos(-d2) == cos(d2);
    }
    assert cos(d2) <= cos(d1);
    Round1Monotone(Max(cos(d2), 0.0) * 100.0, Max(cos(d1), 0.0) * 100.0);
  }

  /** Both ends of the slider give no power. */
  lemma EdgesGiveNoPower(cos: int -> real)
    requires CosineLike(cos)
    ensures Efficiency(cos, 0) == 0.0 && Efficiency(cos, 180) == 0.0
  {
    assert cos(-90) == cos(90);
  }

  // ---- one tick ----

  /** A tick with reset pressed runs at 90 degrees: full power, 300 W, and
      the battery charges. */
  lemma ResetTick(s: State, i: Input, cos: int -> real)
    requires CosineLike(cos) && i.reset
    ensures View(Step(s, i, cos), i, cos).angle == OptimalAngle
    ensures View(Step(s, i, cos), i, cos).powerPercentage == 100.0
    ensures View(Step(s, i, cos), i, cos).estimatedOutput == PeakOutput
    ensures Step(s, i, cos).storageLevel == Min(s.storageLevel + StorageStep, StorageFull)
  {
    OptimumIsFullPower(cos);
  }

  /** The drain test compares the rounded percentage: a cosine just under
      0.3 rounds up to 30.0 and the battery charges. */
  lemma ChargeDecidedOnRounded(s: State, i: Input, cos: int -> real)
    requires 0.2995 <= cos(EffectiveAngle(i.reset, i.panelAngle) - OptimalAngle) < 0.3
    requires 0.0 <= s.storageLevel <= StorageFull - StorageStep
    ensures View(s, i, cos).powerPercentage == 30.0
    ensures Step(s, i, cos).storageLevel == s.storageLevel + StorageStep
  {
  }

  /** Reset is one-shot: a tick without it uses the slider's angle. */
  lemma NoResetUsesSlider(s: State, i: Input, cos: int -> real)
    requires !i.reset
    ensures View(s, i, cos).angle == i.panelAngle
    ensures View(s, i, cos).powerPercentage == Efficiency(cos, i.panelAngle)
  {
  }

  /** The storage level never depends on the dust level, the temperature or
      the clock: two ticks that agree on reset and angle move it alike. */
  lemma StorageIgnoresDust(s: State, i: Input, j: Input, cos: int -> real)
    requires i.reset == j.reset && i.panelAngle == j.panelAngle
    ensures Step(s, i, cos).storageLevel == Step(s, j, cos).storageLevel
  {
  }

  // ---- sequences of ticks ----

  /** From the start of a session, after any sequence of ticks the storage
      level lies in [0, 100], is a whole number of halves, and the rounding
      to one decimal before display leaves it unchanged. */
  lemma SessionStorage(ticks: seq<Input>, cos: int -> real)
    ensures 0.0 <= Run(Initial, ticks, cos).storageLevel <= StorageFull
    ensures IsHalf(Run(Initial, ticks, cos).storageLevel)
    ensures Round1(Run(Initial, ticks, cos).storageLevel) == Run(Initial, ticks, cos).storageLevel
  {
    assert IsHalf(StorageFull);
    var level := Run(Initial, ticks, cos).storageLevel;
    HalfIsTenth(level);
    Round1Exact(level);
  }

  /** Without a dusty tick the last-cleaned stamp is left as it was. */
  lemma {:induction false} RunWithoutDust(s: State, ticks: seq<Input>, cos: int -> real)
    requires forall j :: 0 <= j < |ticks| ==> ticks[j].dust <= DustLimit
    ensures Run(s, ticks, cos).lastCleaned == s.lastCleaned
    decreases |ticks|
  {
    if ticks != [] {
      assert ticks[0].dust <= DustLimit;
      RunWithoutDust(Step(s, ticks[0], cos), ticks[1..], cos);
    }
  }

  /** The stamp is that of the last tick with dust above 70, however many
      dusty ticks came before it (no edge detection). */
  lemma {:induction false} RunLastCleaned(s: State, ticks: seq<Input>, cos: int -> real, k: nat)
    requires k < |ticks| && ticks[k].dust > DustLimit
    requires forall j :: k < j < |ticks| ==> ticks[j].dust <= DustLimit
    ensures Run(s, ticks, cos).lastCleaned == ticks[k].now
    decreases |ticks|
  {
    if k == 0 {
      var t := Step(s, ticks[0], cos);
      assert t.lastCleaned == ticks[0].now;
      forall j | 0 <= j < |ticks[1..]|
        ensures ticks[1..][j].dust <= DustLimit
      {
        assert ticks[1..][j] == ticks[j + 1];
      }
      RunWithoutDust(t, ticks[1..], cos);
    } else {
      forall j | k - 1 < j < |ticks[1..]|
        ensures ticks[1..][j].dust <= DustLimit
      {
        assert ticks[1..][j] == ticks[j + 1];
      }
      RunLastCleaned(Step(s, ticks[0], cos), ticks[1..], cos, k - 1);
    }
  }

  /** A session that never saw dust above 70 still shows "Never". */
  lemma NeverCleaned(ticks: seq<Input>, cos: int -> real)
    requires forall j :: 0 <= j < |ticks| ==> ticks[j].dust <= DustLimit
    ensures Run(Initial, ticks, cos).lastCleaned == "Never"
  {
    RunWithoutDust(Initial, ticks, cos);
  }

  /** Ticks that agree on reset and angle move the storage level alike,
      whatever the dust, temperature and clock readings. */
  lemma {:induction false} RunStorageIgnoresDust(s1: State, s2: State, a: seq<Input>, b: seq<Input>, cos: int -> real)
    requires s1.storageLevel == s2.storageLevel
    requires |a| == |b|
    requires forall j :: 0 <= j < |a| ==> a[j].reset == b[j].reset && a[j].panelAngle == b[j].panelAngle
    ensures Run(s1, a, cos).storageLevel == Run(s2, b, cos).storageLevel
    decreases |a|
  {
    if a != [] {
      assert a[0].reset == b[0].reset && a[0].panelAngle == b[0].panelAngle;
      forall j | 0 <= j < |a[1..]|
        ensures a[1..][j].reset == b[1..][j].reset && a[1..][j].panelAngle == b[1..][j].panelAngle
      {
        assert a[1..][j] == a[j + 1] && b[1..][j] == b[j + 1];
      }
      RunStorageIgnoresDust(Step(s1, a[0], cos), Step(s2, b[0], cos), a[1..], b[1..], cos);
    }
  }

  // ---- worked scenarios ----

  /** Default controls on a full battery: nothing switched on, full power,
      300 W, the battery stays full. */
  lemma ScenarioDefaults(cos: int -> real, now: string)
    requires CosineLike(cos)
    ensures var i := Input(30, 25, 90, false, now);
      var t := Step(Initial, i, cos);
      var d := View(t, i, cos);
      d.autoCleaning == Off && d.cooler == Off && d.powerPercentage == 100.0 &&
      d.estimatedOutput == 300.0 && t == Initial && d.storageColor == Green
  {
    OptimumIsFullPower(cos);
    assert IsHalf(StorageFull);
  }

  /** Panel flat at 0 degrees with half a battery: no power, storage 49.5. */
  lemma ScenarioFlatPanel(cos: int -> real, now: string)
    requires CosineLike(cos)
    ensures var i := Input(30, 25, 0, false, now);
      var t := Step(State("Never", 50.0), i, cos);
      var d := View(t, i, cos);
      d.powerPercentage == 0.0 && d.estimatedOutput == 0.0 &&
      t.storageLevel == 49.5 && d.storageColor == Orange
  {
    EdgesGiveNoPower(cos);
    assert IsHalf(49.5);
  }

  /** Dust at 80 switches auto-cleaning on and stamps the clock reading. */
  lemma ScenarioDusty(s: State, cos: int -> real, now: string)
    ensures var i := Input(80, 25, 90, false, now);
      View(Step(s, i, cos), i, cos).autoCleaning == On && Step(s, i, cos).lastCleaned == now
  {
  }

  /** Hot panel at 41 degrees switches the cooler on; 40 does not. */
  lemma ScenarioCooler(s: State, cos: int -> real, now: string)
    ensures View(s, Input(30, 41, 90, false, now), cos).cooler == On
    ensures View(s, Input(30, 40, 90, false, now), cos).cooler == Off
    ensures View(s, Input(70, 25, 90, false, now), cos).autoCleaning == Off
  {
  }
}
