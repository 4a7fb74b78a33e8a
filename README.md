# Smart solar panel dashboard: the tick rules

The dashboard script `solarpanel.py` re-runs once for every user interaction.
Each run is one *tick*. It reads three sliders: dust level (0-100 %),
temperature (0-60 °C) and panel angle (0-180°). It also reads a one-shot reset
button and two session fields: `last_cleaned` (initially `"Never"`) and
`storage_level` (initially 100). From these it derives:

- the auto-cleaning and cooler switches;
- the efficiency percentage and the estimated output of a 300 W panel;
- the next storage level, the level shown and the colour of the storage bar.

This project models those rules in Dafny and proves properties about them.

- `rounding.dfy`, module `Rounding`: Python's `round(x, 1)`. It is the nearest
  tenth of the exact value, with ties going to the even tenth. The module
  also has the facts about whole numbers of tenths and halves that the rest
  of the model needs.
- `solarpanel.dfy`, module `SolarPanel`: the rules as pure functions
  (actuators, efficiency, output, storage drift, colour tier). It also has
  the session state as a value (`State`), one tick as a state function
  (`Step`) with its display (`View`), and a run of ticks (`Run`). The session
  itself is the class `SolarSim`. Its two fields are updated in place by
  `Tick`, and `Tick` is proved to agree with `Step` and `View`.
- `properties.dfy`, module `SolarProperties`: how efficiency depends on the
  angle, the effect of reset, the invariants of whole sessions, the
  last-cleaned stamp across many ticks, and worked example ticks.

The cosine `np.cos(np.radians(panel_angle - 90))` is a parameter
`cos: int -> real`, mapping whole degrees to a value. The clock reading
`datetime.now().strftime(...)` is a string parameter `now`. The angle lemmas
assume `CosineLike(cos)`: values in [-1, 1], `cos(0) = 1`, `cos(90) = 0`,
even, and non-increasing on [0, 90].

Two details of the code shape the model:

- `last_cleaned` is re-stamped on every tick with dust above 70, with no edge
  detection (solarpanel.py:24-25). `Step` and `RunLastCleaned` state this.
- The sliders are integer sliders (solarpanel.py:12-14), so dust,
  temperature and angle are `int`.

## Model

| member | source | states |
|---|---|---|
| Rounding.NearestTenths | solarpanel.py:34 | the chosen number of tenths is within 0.5 of 10x, and it is even when 10x lies exactly halfway |
| Rounding.Round1 | solarpanel.py:34 | `round(x, 1)` is a whole number of tenths within 0.05 of x |
| Rounding.Round1Nearest | solarpanel.py:34 | no tenth is closer to x than `round(x, 1)` |
| Rounding.Round1Exact | solarpanel.py:82 | rounding a whole number of tenths leaves it unchanged |
| Rounding.Round1Monotone | solarpanel.py:34 | rounding preserves order |
| Rounding.HalfIsTenth | solarpanel.py:82 | every multiple of 0.5 is a multiple of 0.1 |
| Rounding.HalfStep | solarpanel.py:46-49 | adding or subtracting 0.5 keeps a multiple of 0.5 a multiple of 0.5 |
| Rounding.ScaledTenth | solarpanel.py:38 | an integer multiple of a whole number of tenths is a whole number of tenths |
| SolarPanel.EffectiveAngle | solarpanel.py:17-18 | with reset pressed the angle used is 90; without it, the slider's angle |
| SolarPanel.AutoCleaning | solarpanel.py:28 | auto-cleaning is ON iff dust > 70 (70 gives OFF) |
| SolarPanel.Cooler | solarpanel.py:29 | the cooler is ON iff temperature > 40 (40 gives OFF) |
| SolarPanel.PowerPercentage | solarpanel.py:32-34 | the percentage is a whole number of tenths in [0, 100] for a cosine in [-1, 1], 0 for a non-positive cosine, otherwise within 0.05 of 100 × cosine |
| SolarPanel.EstimatedOutput | solarpanel.py:37-38 | for a percentage in [0, 100] the output lies in [0, 300] W; for a percentage with one decimal it is exactly 3 × percentage |
| SolarPanel.NextStorage | solarpanel.py:44-49 | [0, 100] is preserved; under 30 % efficiency the level drops by 0.5 and is floored at 0, and never rises; otherwise it rises by 0.5 and is capped at 100, and never falls (a full battery stays at 100) |
| SolarPanel.DriftKeepsHalves | solarpanel.py:42-49 | a level in [0, 100] that is a multiple of 0.5 stays a multiple of 0.5 after the drift |
| SolarPanel.ColorTier | solarpanel.py:85-90 | green iff level > 70, orange iff 30 < level <= 70, red iff level <= 30 |
| SolarPanel.Efficiency | solarpanel.py:32-34 | the efficiency at an angle has one decimal; it lies in [0, 100] when the cosine of the angle's offset from 90° lies in [-1, 1], and is 0 when that cosine is not positive |
| SolarPanel.Step | solarpanel.py:17-49 | `last_cleaned` becomes the clock reading when dust > 70 and is kept otherwise; the session invariant (storage in [0, 100], a multiple of 0.5) is preserved |
| SolarPanel.View | solarpanel.py:17-90 | on a valid state the shown storage equals the stored level, and its colour is that level's tier; the percentage is non-negative with one decimal, and the output is exactly 3 × percentage |
| SolarPanel.Run | solarpanel.py:20-49 | the session fields after a sequence of reruns: from a state whose storage lies in [0, 100] and is a multiple of 0.5, every run ends in such a state |
| SolarPanel.SolarSim.constructor | solarpanel.py:20-22 | a new session has `last_cleaned = "Never"` and `storage_level = 100` (lines 41-42 too) |
| SolarPanel.SolarSim.Tick | solarpanel.py:17-49 | one in-place update of the two session fields equal to `Step`, the display equal to `View`, and the session invariant kept |
| SolarProperties.EfficiencyBounded | solarpanel.py:32-34 | with a cosine in [-1, 1] the efficiency percentage lies in [0, 100] |
| SolarProperties.OptimumIsFullPower | solarpanel.py:32-34 | at 90° the efficiency is exactly 100 % |
| SolarProperties.EfficiencySymmetric | solarpanel.py:32-34 | the efficiency at 90 - d equals that at 90 + d |
| SolarProperties.EfficiencyFallsWithDistance | solarpanel.py:32-34 | within [0, 180], an angle further from 90° never gives more efficiency |
| SolarProperties.EdgesGiveNoPower | solarpanel.py:32-34 | at 0° and 180° the efficiency is 0 |
| SolarProperties.ResetTick | solarpanel.py:17-18 | a tick with reset runs at 90°, gives 100 % and 300 W, and charges the battery |
| SolarProperties.ChargeDecidedOnRounded | solarpanel.py:34 | a cosine in [0.2995, 0.3) gives 30.0 % after rounding, so the battery charges (line 45 tests the rounded value) |
| SolarProperties.NoResetUsesSlider | solarpanel.py:14-18 | a tick without reset uses the slider's angle |
| SolarProperties.StorageIgnoresDust | solarpanel.py:44-49 | the storage update does not depend on dust, temperature or the clock |
| SolarProperties.SessionStorage | solarpanel.py:41-49 | starting from 100, after any sequence of ticks storage lies in [0, 100], is a multiple of 0.5, and the rounding at line 82 leaves it unchanged |
| SolarProperties.RunWithoutDust | solarpanel.py:24-25 | ticks without dust > 70 leave `last_cleaned` unchanged |
| SolarProperties.RunLastCleaned | solarpanel.py:24-25 | after any ticks, `last_cleaned` is the clock reading of the last tick with dust > 70 (no edge detection) |
| SolarProperties.NeverCleaned | solarpanel.py:21-25 | a session with no tick of dust > 70 still shows "Never" |
| SolarProperties.RunStorageIgnoresDust | solarpanel.py:41-49 | two sessions with the same reset and angle sequence reach the same storage level, whatever their dust, temperature and clock readings |
| SolarProperties.ScenarioDefaults | solarpanel.py:12-49 | dust 30, temperature 25, angle 90 on a full battery: both switches OFF, 100 %, 300 W, storage stays 100, bar green |
| SolarProperties.ScenarioFlatPanel | solarpanel.py:32-49 | angle 0 with storage 50: 0 %, 0 W, storage 49.5, bar orange |
| SolarProperties.ScenarioDusty | solarpanel.py:24-28 | dust 80: auto-cleaning ON and `last_cleaned` set to the clock reading |
| SolarProperties.ScenarioCooler | solarpanel.py:28-29 | temperature 41 turns the cooler ON and 40 does not; dust 70 leaves auto-cleaning OFF |

## Left out

- Streamlit widgets and layout (solarpanel.py:8-14, 52-64, 80, 93-102): these are presentation only. The angle slider's range 0-180 is the precondition of `EfficiencyFallsWithDistance`; the dust and temperature ranges are not used by any rule, so the model does not require them.
- `int(power_percentage)` fed to the progress bar (solarpanel.py:62): display only.
- Image loading, rotation and the matplotlib figure (solarpanel.py:67-77): file I/O and external libraries.
- Trigonometry (solarpanel.py:32): `np.cos`/`np.radians` are floating point, so the cosine is a parameter. The angle lemmas state only what they need of it (`CosineLike`). The floating-point `cos(π/2)` is about 6e-17 rather than 0; it rounds to 0.0 % either way.
- Floating-point error (solarpanel.py:34, 38): the model multiplies and divides exactly. `round` is modelled exactly on the resulting value, but the error of `power_efficiency * 100` and of `300 * (p / 100)` in binary floating point is not modelled. The storage steps of 0.5 are exact in floating point too.
- Clock (solarpanel.py:25): the formatted `datetime.now()` reading is the parameter `now`. Its format is not modelled.
- The session container (solarpanel.py:21-22, 41-42): `st.session_state` and reruns belong to the framework. They are the fields of `SolarSim`, which the constructor sets to "Never" and 100. A run of reruns is the function `Run`.
