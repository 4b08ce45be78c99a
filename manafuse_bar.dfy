/** ManafuseBar: the player's mana as two sliders.  The green slider is the
    mana left; the red one trails behind it and drains down to it over time.
    A latch raises NoManaLeft(true) once when the red slider empties and
    NoManaLeft(false) once when it refills.

    Managers/HUDManager/ManafuseBar.cs and UI/ManafuseBar.cs are two copies of
    the component; they differ only in the drain rate of Update, selected
    here by `Version`.

    The sliders follow UnityEngine.UI.Slider: minimum 0, setting `value`
    clamps it to [minValue, maxValue] and, when the stored value changes,
    notifies the listeners (the red slider's listener is CheckRecovery);
    setting `maxValue` to a new value re-clamps the stored value the same
    way. */
module ManaBar {

  datatype Version = HudManager | LegacyUi

  /** The sliders' state, the latch, and the NoManaLeft invocations so far. */
  datatype Bar = Bar(green: real, red: real, greenMax: real, redMax: real, callsUpdate: bool, noManaLeft: seq<bool>)

  const SliderMin: real := 0.0
  const DefaultUnitDividers := 10
  const DefaultMaxTicks: real := 100.0
  const DefaultRedManaDrainTime: real := 0.5

  /** Mathf.Clamp on float: below `lo` gives `lo`, else above `hi` gives `hi`. */
  function Clamp(value: real, lo: real, hi: real): (r: real)
    ensures lo <= hi ==> lo <= r <= hi
    ensures lo <= value <= hi ==> r == value
  {
    if value < lo then lo else if value > hi then hi else value
  }

  function Max(a: real, b: real): real
  {
    if a >= b then a else b
  }

  /** Both sliders share one non-negative maximum and hold values in range. */
  predicate Valid(b: Bar)
  {
    0.0 <= b.greenMax && b.greenMax == b.redMax &&
    SliderMin <= b.green <= b.greenMax && SliderMin <= b.red <= b.redMax
  }

  /** CheckRecovery: a disarmed latch re-arms, and reports mana, as soon as
      red is above the minimum. */
  function CheckRecovery(b: Bar): (r: Bar)
    ensures r.green == b.green && r.red == b.red && r.greenMax == b.greenMax && r.redMax == b.redMax
    ensures !b.callsUpdate && b.red > SliderMin ==> r.callsUpdate && r.noManaLeft == b.noManaLeft + [false]
    ensures !(!b.callsUpdate && b.red > SliderMin) ==> r == b
  {
    if !b.callsUpdate && b.red > SliderMin then b.(callsUpdate := true, noManaLeft := b.noManaLeft + [false]) else b
  }

  /** greenSlider.value = v (its listener only moves the edge sprite). */
  function SetGreen(b: Bar, v: real): Bar
  {
    b.(green := Clamp(v, SliderMin, b.greenMax))
  }

  /** redSlider.value = v: clamped; CheckRecovery runs only when the stored
      value changes. */
  function SetRed(b: Bar, v: real): (r: Bar)
    ensures r.red == Clamp(v, SliderMin, b.redMax)
    ensures r.green == b.green && r.greenMax == b.greenMax && r.redMax == b.redMax
    ensures b.callsUpdate ==> r.callsUpdate && r.noManaLeft == b.noManaLeft
    ensures r.red != b.red && r.red > SliderMin ==> r.callsUpdate
    ensures r.noManaLeft == b.noManaLeft || (r.noManaLeft == b.noManaLeft + [false] && !b.callsUpdate && r.callsUpdate)
    ensures !b.callsUpdate && !r.callsUpdate ==> r.noManaLeft == b.noManaLeft
  {
    var nv := Clamp(v, SliderMin, b.redMax);
    if nv == b.red then b else CheckRecovery(b.(red := nv))
  }

  /** slider.maxValue = m, for each slider. */
  function SetGreenMax(b: Bar, m: real): Bar
  {
    if m == b.greenMax then b else SetGreen(b.(greenMax := m), b.green)
  }

  function SetRedMax(b: Bar, m: real): Bar
  {
    if m == b.redMax then b else SetRed(b.(redMax := m), b.red)
  }

  /** ChangeByTick: shift green (and, when asked, red) by `amount` within
      [0, MaxSliderValue], then pull red up to green if green passed it. */
  function AfterChangeByTick(b: Bar, amount: real, includeRedSlider: bool): Bar
  {
    var b1 := SetGreen(b, b.green + amount);
    var b2 := SetGreen(b1, Clamp(b1.green, 0.0, b1.greenMax));
    var b3 := if includeRedSlider then
                var b4 := SetRed(b2, b2.red + amount);
                SetRed(b4, Clamp(b4.red, 0.0, b4.greenMax))
              else b2;
    if b3.green > b3.red then SetRed(b3, b3.green) else b3
  }

  /** TicksPerUnit = MaxSliderValue / unitDividers. */
  function TicksPerUnit(b: Bar, unitDividers: int): real
    requires unitDividers != 0
  {
    b.greenMax / (unitDividers as real)
  }

  /** SetManaUnits, after unitDividers and maxTicks are stored: both maxima
      become `maxTicks`; with resetManaValues both values go to the maximum. */
  function AfterSetManaUnits(b: Bar, maxTicks: real, resetManaValues: bool): Bar
  {
    var b1 := SetGreenMax(b, maxTicks);
    var b2 := SetRedMax(b1, maxTicks);
    if resetManaValues then
      var b3 := SetGreen(b2, b2.greenMax);
      SetRed(b3, b3.greenMax)
    else b2
  }

  /** The red slider's drain per second. */
  function DrainRate(version: Version, b: Bar, unitDividers: int, redManaDrainTime: real): real
    requires unitDividers != 0 && (version == HudManager ==> redManaDrainTime != 0.0)
  {
    match version
      case HudManager => TicksPerUnit(b, unitDividers) * (1.0 / redManaDrainTime)
      case LegacyUi => TicksPerUnit(b, unitDividers) * redManaDrainTime
  }

  /** Whether Update reaches its drain step. */
  predicate Drains(b: Bar)
  {
    b.callsUpdate && !(b.red <= SliderMin) && b.red > b.green
  }

  /** Update for one frame of `deltaTime` seconds: an armed latch fires
      NoManaLeft(true) and disarms once red is at the minimum; otherwise red
      above green drains towards it. */
  function AfterUpdate(b: Bar, version: Version, unitDividers: int, redManaDrainTime: real, deltaTime: real): Bar
    requires Drains(b) ==> unitDividers != 0 && (version == HudManager ==> redManaDrainTime != 0.0)
  {
    if !b.callsUpdate then b
    else if b.red <= SliderMin then b.(noManaLeft := b.noManaLeft + [true], callsUpdate := false)
    else if b.red > b.green then SetRed(b, b.red - deltaTime * DrainRate(version, b, unitDividers, redManaDrainTime))
    else b
  }

  /** ChangeByTick keeps the bar in range, moves green by the amount within
      [0, max], and leaves red at least green: red moves by the amount too
      when included, and otherwise changes only when green passes it, to
      green. */
  lemma ChangeByTickContract(b: Bar, amount: real, includeRedSlider: bool)
    requires Valid(b)
    ensures var r := AfterChangeByTick(b, amount, includeRedSlider);
            Valid(r) && r.greenMax == b.greenMax && r.redMax == b.redMax &&
            r.green == Clamp(b.green + amount, 0.0, b.greenMax) &&
            r.red >= r.green &&
            (includeRedSlider ==> r.red == Max(Clamp(b.red + amount, 0.0, b.redMax), r.green)) &&
            (!includeRedSlider ==> r.red == Max(b.red, r.green))
  {
  }

  /** ChangeByTick never disarms the latch and reports at most one
      recovery: exactly when a disarmed latch re-arms. */
  lemma ChangeByTickLatch(b: Bar, amount: real, includeRedSlider: bool)
    requires Valid(b)
    ensures var r := AfterChangeByTick(b, amount, includeRedSlider);
            (b.callsUpdate ==> r.callsUpdate && r.noManaLeft == b.noManaLeft) &&
            (!b.callsUpdate && !r.callsUpdate ==> r.noManaLeft == b.noManaLeft) &&
            (!b.callsUpdate && r.callsUpdate ==> r.noManaLeft == b.noManaLeft + [false])
  {
  }

  /** An empty bar that regains red mana reports the recovery and re-arms. */
  lemma RefillRecovers(b: Bar, amount: real)
    requires Valid(b) && !b.callsUpdate && b.red == SliderMin && amount > 0.0 && b.greenMax > 0.0
    ensures var r := AfterChangeByTick(b, amount, true);
            r.red > SliderMin && r.callsUpdate && r.noManaLeft == b.noManaLeft + [false]
  {
    ChangeByTickContract(b, amount, true);
  }

  /** Spending as many units as there are dividers empties green, and
      gaining as many fills it: a unit is one divider's share of the bar. */
  lemma WholeBarIsUnitDividersUnits(b: Bar, unitDividers: int, includeRedSlider: bool)
    requires Valid(b) && unitDividers > 0
    ensures AfterChangeByTick(b, TicksPerUnit(b, unitDividers) * (-(unitDividers as real)), includeRedSlider).green == 0.0
    ensures AfterChangeByTick(b, TicksPerUnit(b, unitDividers) * (unitDividers as real), includeRedSlider).green == b.greenMax
  {
    UnitsMakeTheWholeBar(b, unitDividers);
    FullSwing(b, includeRedSlider);
  }

  lemma UnitsMakeTheWholeBar(b: Bar, unitDividers: int)
    requires unitDividers > 0
    ensures TicksPerUnit(b, unitDividers) * (unitDividers as real) == b.greenMax
    ensures TicksPerUnit(b, unitDividers) * (-(unitDividers as real)) == -b.greenMax
  {
    QuotientTimesDivisor(b.greenMax, unitDividers as real);
  }

  lemma FullSwing(b: Bar, includeRedSlider: bool)
    requires Valid(b)
    ensures AfterChangeByTick(b, -b.greenMax, includeRedSlider).green == 0.0
    ensures AfterChangeByTick(b, b.greenMax, includeRedSlider).green == b.greenMax
  {
    ChangeByTickContract(b, -b.greenMax, includeRedSlider);
    ChangeByTickContract(b, b.greenMax, includeRedSlider);
  }

  lemma QuotientTimesDivisor(x: real, d: real)
    requires d != 0.0
    ensures (x / d) * d == x
  {
  }

  /** SetManaUnits gives both sliders the maximum `ticks` and keeps the bar
      in range; with resetManaValues the bar is full, without it the values
      are only cut down to the new maximum. */
  lemma SetManaUnitsContract(b: Bar, ticks: real, resetManaValues: bool)
    requires Valid(b) && ticks >= 0.0
    ensures var r := AfterSetManaUnits(b, ticks, resetManaValues);
            Valid(r) && r.greenMax == ticks && r.redMax == ticks &&
            (resetManaValues ==> r.green == ticks && r.red == ticks) &&
            (!resetManaValues ==> r.green == Clamp(b.green, 0.0, ticks) && r.red == Clamp(b.red, 0.0, ticks))
  {
  }

  /** The NoManaLeft latch: an armed latch at empty red fires true exactly
      once and disarms, after which Update does nothing; an armed latch
      with red left fires nothing. */
  lemma UpdateLatch(b: Bar, version: Version, unitDividers: int, redManaDrainTime: real, deltaTime: real)
    requires Valid(b) && (Drains(b) ==> unitDividers != 0 && (version == HudManager ==> redManaDrainTime != 0.0))
    ensures var r := AfterUpdate(b, version, unitDividers, redManaDrainTime, deltaTime);
            (b.callsUpdate && b.red == SliderMin ==>
               r == b.(callsUpdate := false, noManaLeft := b.noManaLeft + [true]) &&
               AfterUpdate(r, version, unitDividers, redManaDrainTime, deltaTime) == r) &&
            (!b.callsUpdate ==> r == b) &&
            (b.callsUpdate && b.red > SliderMin ==> r.callsUpdate && r.noManaLeft == b.noManaLeft)
  {
  }

  /** A drain step keeps the bar in range, lowers red by at most the
      frame's drain and leaves green alone. */
  lemma UpdateDrains(b: Bar, version: Version, unitDividers: int, redManaDrainTime: real, deltaTime: real)
    requires Valid(b) && Drains(b) && unitDividers > 0 && redManaDrainTime > 0.0 && deltaTime >= 0.0
    ensures var r := AfterUpdate(b, version, unitDividers, redManaDrainTime, deltaTime);
            Valid(r) && r.green == b.green && SliderMin <= r.red <= b.red &&
            r.red >= b.red - deltaTime * DrainRate(version, b, unitDividers, redManaDrainTime)
  {
    var rate := DrainRate(version, b, unitDividers, redManaDrainTime);
    assert TicksPerUnit(b, unitDividers) >= 0.0;
    assert rate >= 0.0 by {
      if version == HudManager {
        assert 1.0 / redManaDrainTime > 0.0;
      }
    }
    assert deltaTime * rate >= 0.0;
  }

  /** The drain time is the time one unit's worth of red mana takes to
      drain.  The HUD copy's rate honours it: draining TicksPerUnit ticks at
      that rate takes exactly redManaDrainTime seconds. */
  lemma HudDrainTakesDrainTimePerUnit(b: Bar, unitDividers: int, redManaDrainTime: real)
    requires unitDividers != 0 && redManaDrainTime > 0.0
    ensures DrainRate(HudManager, b, unitDividers, redManaDrainTime) * redManaDrainTime == TicksPerUnit(b, unitDividers)
  {
    var t := TicksPerUnit(b, unitDividers);
    QuotientTimesDivisor(1.0, redManaDrainTime);
    calc {
      DrainRate(HudManager, b, unitDividers, redManaDrainTime) * redManaDrainTime;
      (t * (1.0 / redManaDrainTime)) * redManaDrainTime;
      t * ((1.0 / redManaDrainTime) * redManaDrainTime);
      t;
    }
  }

  /** The legacy copy multiplies by the drain time instead: whenever a unit
      is worth some ticks and the drain time is not exactly one second,
      draining one unit does not take redManaDrainTime seconds. */
  lemma LegacyDrainMissesDrainTime(b: Bar, unitDividers: int, redManaDrainTime: real)
    requires unitDividers != 0 && TicksPerUnit(b, unitDividers) > 0.0
    requires redManaDrainTime > 0.0 && redManaDrainTime != 1.0
    ensures DrainRate(LegacyUi, b, unitDividers, redManaDrainTime) * redManaDrainTime != TicksPerUnit(b, unitDividers)
  {
    var t := TicksPerUnit(b, unitDividers);
    var d := redManaDrainTime;
    assert DrainRate(LegacyUi, b, unitDividers, d) * d == t * (d * d);
    var e := d * d - 1.0;
    assert t * (d * d) == t + t * e;
    if d < 1.0 {
      assert d * d < d;
      assert e < 0.0;
      assert t * e < 0.0;
    } else {
      assert d * d > d;
      assert e > 0.0;
      assert t * e > 0.0;
    }
  }

  /** With the inspector defaults on a 100-tick bar: a unit is 10 ticks, the
      legacy copy drains 5 ticks a second, so one unit takes 2 seconds
      instead of 0.5; the HUD copy drains 20 ticks a second. */
  lemma DefaultDrainRates()
    ensures var b := Bar(100.0, 100.0, 100.0, 100.0, true, []);
            TicksPerUnit(b, DefaultUnitDividers) == 10.0 &&
            DrainRate(LegacyUi, b, DefaultUnitDividers, DefaultRedManaDrainTime) == 5.0 &&
            DrainRate(HudManager, b, DefaultUnitDividers, DefaultRedManaDrainTime) == 20.0
  {
  }

  class ManafuseBar {
    const version: Version
    var unitDividers: int
    const redManaDrainTime: real
    var maxTicks: real
    var green: real
    var red: real
    var greenMax: real
    var redMax: real
    var callsUpdate: bool
    /** The arguments NoManaLeft has been raised with, in order. */
    var noManaLeftEvents: seq<bool>

    function State(): Bar
      reads this
    {
      Bar(green, red, greenMax, redMax, callsUpdate, noManaLeftEvents)
    }

    /** The serialized defaults; the sliders' values and common maximum
        come from the scene. */
    constructor (version: Version, value: real, maxValue: real)
      ensures this.version == version && unitDividers == DefaultUnitDividers &&
              redManaDrainTime == DefaultRedManaDrainTime && maxTicks == DefaultMaxTicks
      ensures State() == Bar(value, value, maxValue, maxValue, true, [])
    {
      this.version := version;
      unitDividers := DefaultUnitDividers;
      redManaDrainTime := DefaultRedManaDrainTime;
      maxTicks := DefaultMaxTicks;
      green := value;
      red := value;
      greenMax := maxValue;
      redMax := maxValue;
      callsUpdate := true;
      noManaLeftEvents := [];
    }

    function MaxSliderValue(): real
      reads this
    {
      greenMax
    }

    method CheckRecoveryListener()
      modifies this
      ensures State() == CheckRecovery(old(State()))
      ensures unitDividers == old(unitDividers) && maxTicks == old(maxTicks)
    {
      if !callsUpdate && red > SliderMin {
        callsUpdate := true;
        noManaLeftEvents := noManaLeftEvents + [false];
      }
    }

    method SetGreenValue(v: real)
      modifies this
      ensures State() == SetGreen(old(State()), v)
      ensures unitDividers == old(unitDividers) && maxTicks == old(maxTicks)
    {
      green := Clamp(v, SliderMin, greenMax);
    }

    method SetRedValue(v: real)
      modifies this
      ensures State() == SetRed(old(State()), v)
      ensures unitDividers == old(unitDividers) && maxTicks == old(maxTicks)
    {
      var newValue := Clamp(v, SliderMin, redMax);
      if red == newValue {
        return;
      }
      red := newValue;
      CheckRecoveryListener();
    }

    method ChangeByTick(amount: real, includeRedSlider: bool)
      modifies this
      ensures State() == AfterChangeByTick(old(State()), amount, includeRedSlider)
      ensures unitDividers == old(unitDividers) && maxTicks == old(maxTicks)
    {
      SetGreenValue(green + amount);
      SetGreenValue(Clamp(green, 0.0, MaxSliderValue()));
      if includeRedSlider {
        SetRedValue(red + amount);
        SetRedValue(Clamp(red, 0.0, MaxSliderValue()));
      }
      if green > red {
        SetRedValue(green);
      }
    }

    method ChangeByUnit(noUnits: int, includeRedSlider: bool)
      requires unitDividers != 0
      modifies this
      ensures unitDividers == old(unitDividers) && maxTicks == old(maxTicks)
      ensures State() == AfterChangeByTick(old(State()), old(TicksPerUnit(State(), unitDividers)) * (noUnits as real), includeRedSlider)
    {
      var valueToChange := TicksPerUnit(State(), unitDividers) * (noUnits as real);
      ChangeByTick(valueToChange, includeRedSlider);
    }

    method SetManaUnits(units: int, ticks: int := 100, resetManaValues: bool := true)
      modifies this
      ensures unitDividers == units && maxTicks == ticks as real
      ensures State() == AfterSetManaUnits(old(State()), ticks as real, resetManaValues)
    {
      unitDividers := units;
      if maxTicks != ticks as real {
        maxTicks := ticks as real;
      }
      if greenMax != maxTicks {
        greenMax := maxTicks;
        SetGreenValue(green);
      }
      if redMax != maxTicks {
        redMax := maxTicks;
        SetRedValue(red);
      }
      if resetManaValues {
        SetGreenValue(MaxSliderValue());
        SetRedValue(MaxSliderValue());
      }
    }

    method Update(deltaTime: real)
      requires Drains(State()) ==> unitDividers != 0 && (version == HudManager ==> redManaDrainTime != 0.0)
      modifies this
      ensures unitDividers == old(unitDividers) && maxTicks == old(maxTicks)
      ensures State() == AfterUpdate(old(State()), version, unitDividers, redManaDrainTime, deltaTime)
    {
      if !callsUpdate {
        return;
      }
      if red <= SliderMin {
        noManaLeftEvents := noManaLeftEvents + [true];
        callsUpdate := false;
        return;
      }
      if red > green {
        SetRedValue(red - deltaTime * DrainRate(version, State(), unitDividers, redManaDrainTime));
      }
    }
  }
}
