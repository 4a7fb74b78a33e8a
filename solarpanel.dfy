/** The rule set of the solar panel dashboard: one tick maps the three
    control values, the reset signal and the two session fields to the
    derived display values and the next session fields. */
module SolarPanel {
  import opened Rounding

  const DustLimit := 70
  const HeatLimit := 40
  const OptimalAngle := 90
  const PeakOutput: real := 300.0
  const DrainBelow: real := 30.0
  const StorageStep: real := 0.5
  const StorageFull: real := 100.0
  const GreenAbove: real := 70.0
  const OrangeAbove: real := 30.0

  /** The "ON" / "OFF" status of an actuator. */
  datatype Switch = On | Off

  /** Colour of the storage bar. */
  datatype Tier = Green | Orange | Red

  function Max(a: real, b: real): real { if a < b then b else a }
  function Min(a: real, b: real): real { if a < b then a else b }

  /** The angle a tick uses: the reset button overrides the slider. */
  function EffectiveAngle(reset: bool, panelAngle: int): (angle: int)
    ensures reset ==> angle == OptimalAngle
    ensures !reset ==> angle == panelAngle
  {
    if reset then OptimalAngle else panelAngle
  }

  function AutoCleaning(dust: int): (s: Switch)
    ensures s == On <==> dust > DustLimit
  {
    if dust > DustLimit then On else Off
  }

  function Cooler(temperature: int): (s: Switch)
    ensures s == On <==> temperature > HeatLimit
  {
    if temperature > HeatLimit then On else Off
  }

  /** Efficiency percentage from the cosine value: floored at 0, scaled to a
      percentage and rounded to one decimal. */
  function PowerPercentage(c: real): (p: real)
    ensures IsTenth(p)
    ensures 0.0 <= p
    ensures c <= 1.0 ==> p <= 100.0
    ensures c <= 0.0 ==> p == 0.0
    ensures c >= 0.0 ==> c * 100.0 - 0.05 <= p <= c * 100.0 + 0.05
  {
    Round1(Max(c, 0.0) * 100.0)
  }

  /** Estimated output in watts of a 300 W peak panel at percentage p. */
  function EstimatedOutput(p: real): (w: real)
    ensures 0.0 <= p <= 100.0 ==> 0.0 <= w <= PeakOutput
    ensures IsTenth(p) ==> w == 3.0 * p
  {
    var w := Round1(PeakOutput * (p / 100.0));
    if IsTenth(p) then
      ScaledTenth(p, 3);
      Round1Exact(3.0 * p);
      w
    else
      w
  }

  /** Storage drift: down 0.5 (not below 0) when the efficiency is under 30,
      up 0.5 (not above 100) otherwise. */
  function NextStorage(level: real, p: real): (next: real)
    ensures 0.0 <= level <= StorageFull ==> 0.0 <= next <= StorageFull
    ensures p < DrainBelow && 0.0 <= level ==>
      0.0 <= next <= level &&
      (level >= StorageStep ==> next == level - StorageStep) &&
      (level < StorageStep ==> next == 0.0)
    ensures p >= DrainBelow && level <= StorageFull ==>
      level <= next <= StorageFull &&
      (level <= StorageFull - StorageStep ==> next == level + StorageStep) &&
      (level > StorageFull - StorageStep ==> next == StorageFull)
  {
    if p < DrainBelow then Max(level - StorageStep, 0.0)
    else Min(level + StorageStep, StorageFull)
  }

  /** Starting from a whole number of halves in [0, 100], the drift stays on
      whole numbers of halves: the clamps at 0 and 100 are themselves ones. */
  lemma DriftKeepsHalves(level: real, p: real)
    ensures 0.0 <= level <= StorageFull && IsHalf(level) ==> IsHalf(NextStorage(level, p))
  {
    if IsHalf(level) {
      HalfStep(level);
      assert IsHalf(0.0) && IsHalf(StorageFull);
    }
  }

  /** Colour of the storage bar for the displayed storage level. */
  function ColorTier(level: real): (t: Tier)
    ensures t == Green <==> level > GreenAbove
    ensures t == Orange <==> OrangeAbove < level <= GreenAbove
    ensures t == Red <==> level <= OrangeAbove
  {
    if level > GreenAbove then Green
    else if level > OrangeAbove then Orange
    else Red
  }

  /** The two session fields. */
  datatype State = State(lastCleaned: string, storageLevel: real)

  /** The session fields as the first tick of a session creates them. */
  const Initial := State("Never", StorageFull)

  /** What every reachable session state satisfies. */
  predicate Inv(s: State)
  {
    0.0 <= s.storageLevel <= StorageFull && IsHalf(s.storageLevel)
  }

  /** One interaction: the slider values, the reset signal and the clock reading. */
  datatype Input = Input(dust: int, temperature: int, panelAngle: int, reset: bool, now: string)

  /** The values shown on the dashboard after a tick. */
  datatype Display = Display(
    autoCleaning: Switch,
    cooler: Switch,
    angle: int,
    powerPercentage: real,
    estimatedOutput: real,
    storageShown: real,
    storageColor: Tier)

  /** `cos(angle)` is the cosine of the angle given in degrees. */
  function Efficiency(cos: int -> real, angle: int): (p: real)
    ensures IsTenth(p)
    ensures -1.0 <= cos(angle - OptimalAngle) <= 1.0 ==> 0.0 <= p <= 100.0
    ensures cos(angle - OptimalAngle) <= 0.0 ==> p == 0.0
  {
    PowerPercentage(cos(angle - OptimalAngle))
  }

  /** The session fields after one tick. */
  function Step(s: State, i: Input, cos: int -> real): (t: State)
    ensures i.dust > DustLimit ==> t.lastCleaned == i.now
    ensures i.dust <= DustLimit ==> t.lastCleaned == s.lastCleaned
    ensures Inv(s) ==> Inv(t)
  {
    var p := Efficiency(cos, EffectiveAngle(i.reset, i.panelAngle));
    DriftKeepsHalves(s.storageLevel, p);
    State(if i.dust > DustLimit then i.now else s.lastCleaned, NextStorage(s.storageLevel, p))
  }

  /** The dashboard after a tick that left the session fields at t. */
  function View(t: State, i: Input, cos: int -> real): (d: Display)
    ensures Inv(t) ==> d.storageShown == t.storageLevel && d.storageColor == ColorTier(t.storageLevel)
    ensures d.powerPercentage >= 0.0
    ensures IsTenth(d.powerPercentage) && d.estimatedOutput == 3.0 * d.powerPercentage
  {
    var angle := EffectiveAngle(i.reset, i.panelAngle);
    var p := Efficiency(cos, angle);
    var shown := Round1(t.storageLevel);
    assert Inv(t) ==> shown == t.storageLevel by {
      if Inv(t) {
        HalfIsTenth(t.storageLevel);
        Round1Exact(t.storageLevel);
      }
    }
    Display(AutoCleaning(i.dust), Cooler(i.temperature), angle, p, EstimatedOutput(p), shown, ColorTier(shown))
  }

  /** The session fields after a sequence of ticks. */
  function Run(s: State, ticks: seq<Input>, cos: int -> real): (r: State)
    ensures Inv(s) ==> Inv(r)
    decreases |ticks|
  {
    if ticks == [] then s else Run(Step(s, ticks[0], cos), ticks[1..], cos)
  }

  /** The session of one user: Streamlit's session state holding
      `last_cleaned` and `storage_level`. */
  class SolarSim {
    var lastCleaned: string
    var storageLevel: real

    function Snapshot(): State
      reads this
    {
      State(lastCleaned, storageLevel)
    }

    ghost predicate Valid()
      reads this
    {
      Inv(Snapshot())
    }

    constructor ()
      ensures Valid() && Snapshot() == Initial
    {
      lastCleaned := "Never";
      storageLevel := StorageFull;
    }

    /** One rerun of the dashboard script. */
    method Tick(dust: int, temperature: int, panelAngle: int, reset: bool, now: string, cos: int -> real)
      returns (d: Display)
      requires Valid()
      modifies this
      ensures Valid()
      ensures Snapshot() == Step(old(Snapshot()), Input(dust, temperature, panelAngle, reset, now), cos)
      ensures d == View(Snapshot(), Input(dust, temperature, panelAngle, reset, now), cos)
    {
      ghost var before := Snapshot();
      ghost var input := Input(dust, temperature, panelAngle, reset, now);
      var angle := panelAngle;
      if reset {
        angle := OptimalAngle;
      }
      if dust > DustLimit {
        lastCleaned := now;
      }
      var autoCleaning := AutoCleaning(dust);
      var cooler := Cooler(temperature);
      var percentage := PowerPercentage(cos(angle - OptimalAngle));
      var output := EstimatedOutput(percentage);
      if percentage < DrainBelow {
        storageLevel := storageLevel - StorageStep;
        storageLevel := Max(storageLevel, 0.0);
      } else {
        storageLevel := Min(storageLevel + StorageStep, StorageFull);
      }
      assert percentage == Efficiency(cos, EffectiveAngle(reset, panelAngle));
      assert storageLevel == NextStorage(before.storageLevel, percentage);
      assert Snapshot() == Step(before, input, cos);
      var shown := Round1(storageLevel);
      d := Display(autoCleaning, cooler, angle, percentage, output, shown, ColorTier(shown));
    }
  }
}
