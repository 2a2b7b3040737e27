/** The electrolyzer sizing estimator of the front end
    (frontend/src/components/ElectrolyzerSizingTool.jsx): four user inputs are
    checked in a fixed order, a solar capacity factor is derived from the
    annual irradiation and the performance ratio, a two-bucket rule picks the
    electrolyzer-to-solar ratio, and the suggested electrolyzer power is the
    solar peak power times that ratio.

    The pure formulas are functions; the component's state (four inputs and
    five outputs) is the class SizingTool, whose method
    CalculateElectrolyzerPower updates the outputs step by step as the
    component's handler does. */
module ElectrolyzerSizing {
  import opened Common

  /** Hours in a non-leap year. */
  const TotalHoursInYear: real := 8760.0

  /** Capacity factors at or above 18 % count as high. */
  const CfThresholdForRatio: real := 0.18

  /** Electrolyzer power : solar peak power, for a high and for a low capacity factor. */
  const HighCfRatio: real := 0.5
  const LowCfRatio: real := 0.25

  // ---------------------------------------------------------------------
  // Inputs and their validation
  // ---------------------------------------------------------------------

  /** The four input fields. */
  datatype Field =
    | SolarFarmPeakPower      // MW
    | BatteryStorageCapacity  // MWh
    | AnnualSolarIrradiation  // kWh/m²/year
    | SystemPerformanceRatio  // unitless

  /** Position of a field in the order the handler checks them. */
  function CheckOrder(f: Field): nat
  {
    match f
    case SolarFarmPeakPower => 0
    case BatteryStorageCapacity => 1
    case AnnualSolarIrradiation => 2
    case SystemPerformanceRatio => 3
  }

  /** The inputs as `parseFloat` leaves them: None is NaN (an empty or
      non-numeric field). */
  datatype Inputs = Inputs(
    peakPower: Option<real>,
    batteryCapacity: Option<real>,
    annualIrradiation: Option<real>,
    performanceRatio: Option<real>)

  function InputOf(i: Inputs, f: Field): Option<real>
  {
    match f
    case SolarFarmPeakPower => i.peakPower
    case BatteryStorageCapacity => i.batteryCapacity
    case AnnualSolarIrradiation => i.annualIrradiation
    case SystemPerformanceRatio => i.performanceRatio
  }

  /** The admissible range of each field: peak power and irradiation
      positive, battery capacity non-negative (0 is allowed), performance
      ratio in (0, 1]. NaN is never admissible. */
  predicate Admissible(f: Field, v: Option<real>)
  {
    v.Some? &&
    match f
    case SolarFarmPeakPower => v.value > 0.0
    case BatteryStorageCapacity => v.value >= 0.0
    case AnnualSolarIrradiation => v.value > 0.0
    case SystemPerformanceRatio => 0.0 < v.value <= 1.0
  }

  /** Every field is in its admissible range. */
  predicate AllAdmissible(i: Inputs)
  {
    && Admissible(SolarFarmPeakPower, i.peakPower)
    && Admissible(BatteryStorageCapacity, i.batteryCapacity)
    && Admissible(AnnualSolarIrradiation, i.annualIrradiation)
    && Admissible(SystemPerformanceRatio, i.performanceRatio)
  }

  /** The numbers the calculation goes on with once every check passed. */
  datatype CheckedInputs = CheckedInputs(
    peakPower: real,
    batteryCapacity: real,
    annualIrradiation: real,
    performanceRatio: real)

  /** The four checks, in the handler's order, stopping at the first that fails.
      The result names the first field (in check order) outside its
      admissible range; the inputs pass exactly when every field is admissible. */
  function Validate(i: Inputs): (r: Result<CheckedInputs, Field>)
    ensures r.Success? <==> AllAdmissible(i)
    ensures r.Failure? ==>
      && !Admissible(r.error, InputOf(i, r.error))
      && forall f :: CheckOrder(f) < CheckOrder(r.error) ==> Admissible(f, InputOf(i, f))
    ensures r.Success? ==>
      && Some(r.value.peakPower) == i.peakPower
      && Some(r.value.batteryCapacity) == i.batteryCapacity
      && Some(r.value.annualIrradiation) == i.annualIrradiation
      && Some(r.value.performanceRatio) == i.performanceRatio
  {
    if i.peakPower.None? || i.peakPower.value <= 0.0 then
      Failure(SolarFarmPeakPower)
    else if i.batteryCapacity.None? || i.batteryCapacity.value < 0.0 then
      assert Admissible(SolarFarmPeakPower, i.peakPower);
      Failure(BatteryStorageCapacity)
    else if i.annualIrradiation.None? || i.annualIrradiation.value <= 0.0 then
      assert Admissible(SolarFarmPeakPower, i.peakPower);
      assert Admissible(BatteryStorageCapacity, i.batteryCapacity);
      Failure(AnnualSolarIrradiation)
    else if i.performanceRatio.None? || i.performanceRatio.value <= 0.0
         || i.performanceRatio.value > 1.0 then
      assert Admissible(SolarFarmPeakPower, i.peakPower);
      assert Admissible(BatteryStorageCapacity, i.batteryCapacity);
      assert Admissible(AnnualSolarIrradiation, i.annualIrradiation);
      Failure(SystemPerformanceRatio)
    else
      Success(CheckedInputs(i.peakPower.value, i.batteryCapacity.value,
                            i.annualIrradiation.value, i.performanceRatio.value))
  }

  /** The message the form shows. */
  datatype ErrorMessage = NoError | InvalidInput(field: Field)

  function ErrorText(e: ErrorMessage): string
  {
    match e
    case NoError => ""
    case InvalidInput(SolarFarmPeakPower) =>
      "Please enter a valid positive number for Solar Farm Peak Power (MW)."
    case InvalidInput(BatteryStorageCapacity) =>
      "Please enter a valid non-negative number for Battery Storage Capacity (MWh)."
    case InvalidInput(AnnualSolarIrradiation) =>
      "Please enter a valid positive number for Average Annual Solar Irradiation (kWh/m²/year)."
    case InvalidInput(SystemPerformanceRatio) =>
      "Please enter a valid System Performance Ratio (between 0 and 1)."
  }

  // ---------------------------------------------------------------------
  // Capacity factor, sizing ratio, suggested power
  // ---------------------------------------------------------------------

  /** CF = annual irradiation × performance ratio / 8760, without a clamp. */
  function CapacityFactor(annualIrradiation: real, performanceRatio: real): (cf: real)
    ensures cf * TotalHoursInYear == annualIrradiation * performanceRatio
    ensures annualIrradiation > 0.0 && performanceRatio > 0.0 ==> cf > 0.0
    ensures annualIrradiation >= 0.0 && performanceRatio <= 1.0 ==>
      cf <= annualIrradiation / TotalHoursInYear
  {
    ScaledDown(annualIrradiation, performanceRatio);
    annualIrradiation * performanceRatio / TotalHoursInYear
  }

  /** A non-negative amount scaled by a factor of at most 1 does not grow. */
  lemma ScaledDown(a: real, p: real)
    ensures a >= 0.0 && p <= 1.0 ==> a * p / TotalHoursInYear <= a / TotalHoursInYear
  {
    if a >= 0.0 && p <= 1.0 {
      var q := 1.0 - p;
      assert a * q >= 0.0;
      assert a * p == a - a * q;
    }
  }

  /** The two-bucket rule: 1:2 from an 18 % capacity factor on (18 % included), 1:4 below. */
  function SizingRatio(cf: real): (ratio: real)
    ensures ratio == HighCfRatio <==> cf >= CfThresholdForRatio
    ensures ratio == LowCfRatio <==> cf < CfThresholdForRatio
  {
    if cf >= CfThresholdForRatio then HighCfRatio else LowCfRatio
  }

  /** The rule never picks a smaller ratio for a larger capacity factor. */
  lemma SizingRatioMonotone(cf1: real, cf2: real)
    requires cf1 <= cf2
    ensures SizingRatio(cf1) <= SizingRatio(cf2)
  {
  }

  /** The explanation shown with a recommendation; it carries the capacity
      factor as a percentage with one decimal (`(cf * 100).toFixed(1)`). */
  datatype Reason = NoReason | HighCapacityFactor(percent: real) | LowCapacityFactor(percent: real)

  /** The "1:n" that the result panel prints for a ratio (`1 / sizingRatioUsed`). */
  function DisplayedRatio(ratio: real): real
    requires ratio != 0.0
  {
    1.0 / ratio
  }

  // ---------------------------------------------------------------------
  // The whole calculation as a function of the inputs
  // ---------------------------------------------------------------------

  /** The five output fields: capacity factor, suggested power, ratio used
      (None is JavaScript null), the reason and the error message. */
  datatype Outputs = Outputs(
    capacityFactor: Option<real>,
    suggestedPower: Option<real>,
    ratioUsed: Option<real>,
    reason: Reason,
    error: ErrorMessage)

  /** What the outputs hold right after the handler cleared them. */
  const Cleared: Outputs := Outputs(None, None, None, NoReason, NoError)

  /** What one press of "Calculate" leaves in the five output fields,
      whatever they held before. */
  function Calculate(i: Inputs): (o: Outputs)
    ensures o.error == NoError <==> AllAdmissible(i)
    ensures o.suggestedPower.Some? <==> o.error == NoError
    ensures o.error != NoError ==> o.(error := NoError) == Cleared
  {
    match Validate(i)
    case Failure(f) => Cleared.(error := InvalidInput(f))
    case Success(c) =>
      var cf := CapacityFactor(c.annualIrradiation, c.performanceRatio);
      var ratio := SizingRatio(cf);
      var percent := ToFixed(cf * 100.0, 1);
      var reason := if ratio == HighCfRatio then HighCapacityFactor(percent)
                    else LowCapacityFactor(percent);
      Outputs(Some(cf), Some(c.peakPower * ratio), Some(ratio), reason, NoError)
  }

  /** Rejected inputs: the message names the first field, in check order,
      that is out of range, and CF, ratio, power and reason stay empty. */
  lemma RejectedInputsLeaveOutputsEmpty(i: Inputs)
    requires !AllAdmissible(i)
    ensures var o := Calculate(i);
      && o.error.InvalidInput?
      && !Admissible(o.error.field, InputOf(i, o.error.field))
      && (forall f :: CheckOrder(f) < CheckOrder(o.error.field) ==> Admissible(f, InputOf(i, f)))
      && o.capacityFactor == None && o.ratioUsed == None && o.suggestedPower == None
      && o.reason == NoReason
  {
  }

  /** Accepted inputs: CF is irradiation × PR / 8760, the 1:2 ratio is used
      exactly when CF reaches 18 %, and the suggested power is the peak power
      times the ratio, so it is positive and below the peak power. */
  lemma AcceptedInputsGiveRecommendation(i: Inputs)
    requires AllAdmissible(i)
    ensures var o := Calculate(i);
      && o.capacityFactor.Some? && o.ratioUsed.Some? && o.suggestedPower.Some?
      && o.capacityFactor.value * TotalHoursInYear
           == i.annualIrradiation.value * i.performanceRatio.value
      && (o.ratioUsed.value == HighCfRatio <==> o.capacityFactor.value >= CfThresholdForRatio)
      && (o.ratioUsed.value == LowCfRatio <==> o.capacityFactor.value < CfThresholdForRatio)
      && o.suggestedPower.value == i.peakPower.value * o.ratioUsed.value
      && 0.0 < o.suggestedPower.value < i.peakPower.value
      && (o.reason.HighCapacityFactor? <==> o.ratioUsed.value == HighCfRatio)
      && (o.reason.LowCapacityFactor? <==> o.ratioUsed.value == LowCfRatio)
      && !o.reason.NoReason?
      && o.reason.percent == ToFixed(o.capacityFactor.value * 100.0, 1)
  {
  }

  /** A successful calculation suggests exactly half or a quarter of the
      peak power, and the panel's "1:n" is 1:2 or 1:4 accordingly. */
  lemma {:induction false} SuggestedPowerIsHalfOrQuarter(i: Inputs)
    requires AllAdmissible(i)
    ensures var o := Calculate(i);
      && (o.suggestedPower.value == i.peakPower.value / 2.0
          || o.suggestedPower.value == i.peakPower.value / 4.0)
      && (DisplayedRatio(o.ratioUsed.value) == 2.0 || DisplayedRatio(o.ratioUsed.value) == 4.0)
      && o.suggestedPower.value * DisplayedRatio(o.ratioUsed.value) == i.peakPower.value
  {
    var o := Calculate(i);
    assert o.ratioUsed.value == HighCfRatio || o.ratioUsed.value == LowCfRatio;
  }

  /** The battery capacity is checked but feeds no output: two inputs that
      differ only in an admissible battery capacity give the same outputs. */
  lemma {:induction false} BatteryCapacityIsAdvisoryOnly(i: Inputs, battery: real)
    requires Admissible(BatteryStorageCapacity, i.batteryCapacity)
    requires battery >= 0.0
    ensures Calculate(i.(batteryCapacity := Some(battery))) == Calculate(i)
  {
    var j := i.(batteryCapacity := Some(battery));
    match Validate(i)
    case Failure(f) =>
      assert Validate(j) == Failure(f);
    case Success(c) =>
      assert Validate(j) == Success(c.(batteryCapacity := battery));
  }

  /** More annual irradiation never lowers the suggested power. */
  lemma {:induction false} SuggestedPowerMonotoneInIrradiation(i: Inputs, more: real)
    requires AllAdmissible(i)
    requires more >= i.annualIrradiation.value
    ensures var j := i.(annualIrradiation := Some(more));
      && AllAdmissible(j)
      && Calculate(i).suggestedPower.value <= Calculate(j).suggestedPower.value
  {
    var pr := i.performanceRatio.value;
    var cfI := CapacityFactor(i.annualIrradiation.value, pr);
    var cfJ := CapacityFactor(more, pr);
    assert pr > 0.0;
    var gap := more - i.annualIrradiation.value;
    assert gap >= 0.0;
    assert gap * pr >= 0.0;
    assert more * pr == i.annualIrradiation.value * pr + gap * pr;
    assert cfI <= cfJ;
    SizingRatioMonotone(cfI, cfJ);
  }

  /** Worked example of a temperate site (the form's placeholders):
      25 MW, 13.4 MWh, 1150 kWh/m², PR 0.80 give CF ≈ 10.5 %, the 1:4 ratio and 6.25 MW. */
  lemma MunichExample()
    ensures Calculate(Inputs(Some(25.0), Some(13.4), Some(1150.0), Some(0.80)))
         == Outputs(Some(920.0 / 8760.0), Some(6.25), Some(0.25), LowCapacityFactor(10.5), NoError)
  {
    var cf := CapacityFactor(1150.0, 0.80);
    assert cf == 920.0 / 8760.0;
    assert cf * 100.0 * Scale(1) + 0.5 == 920000.0 / 8760.0 + 0.5;
    RoundHalfUpUnfold(cf * 100.0, 1);
    assert (cf * 100.0 * Scale(1) + 0.5).Floor == 105;
  }

  /** Worked example of a desert site: 2333 kWh/m² with PR 0.80 give
      CF ≈ 21.3 %, the 1:2 ratio and 12.5 MW. */
  lemma ArandisExample()
    ensures Calculate(Inputs(Some(25.0), Some(13.4), Some(2333.0), Some(0.80)))
         == Outputs(Some(1866.4 / 8760.0), Some(12.5), Some(0.5), HighCapacityFactor(21.3), NoError)
  {
    var cf := CapacityFactor(2333.0, 0.80);
    assert cf == 1866.4 / 8760.0;
    assert cf * 100.0 * Scale(1) + 0.5 == 1866400.0 / 8760.0 + 0.5;
    RoundHalfUpUnfold(cf * 100.0, 1);
    assert (cf * 100.0 * Scale(1) + 0.5).Floor == 213;
  }

  /** The edges of the rules: a full year of rated output is CF = 1; a CF of
      exactly 18 % takes the 1:2 branch and one just below takes 1:4; a
      performance ratio of 1.5 is refused while 1 is accepted. */
  lemma BoundaryCases(peak: real, battery: real, irradiation: real)
    requires peak > 0.0 && battery >= 0.0 && irradiation > 0.0
    ensures CapacityFactor(8760.0, 1.0) == 1.0
    ensures SizingRatio(0.18) == 0.5 && SizingRatio(0.179999) == 0.25
    ensures Calculate(Inputs(Some(peak), Some(battery), Some(irradiation), Some(1.5))).error
         == InvalidInput(SystemPerformanceRatio)
    ensures Calculate(Inputs(Some(peak), Some(battery), Some(irradiation), Some(1.0))).error == NoError
  {
  }

  // ---------------------------------------------------------------------
  // The component's state
  // ---------------------------------------------------------------------

  /** The component: four parsed input fields and five output fields. */
  class SizingTool {
    var solarFarmPeakPower: Option<real>
    var batteryStorageCapacity: Option<real>
    var annualSolarIrradiation: Option<real>
    var systemPerformanceRatio: Option<real>

    var solarCapacityFactor: Option<real>
    var suggestedElectrolyzerPower: Option<real>
    var sizingRatioUsed: Option<real>
    var recommendationReason: Reason
    var errorMessage: ErrorMessage

    function CurrentInputs(): Inputs
      reads this
    {
      Inputs(solarFarmPeakPower, batteryStorageCapacity, annualSolarIrradiation, systemPerformanceRatio)
    }

    function CurrentOutputs(): Outputs
      reads this
    {
      Outputs(solarCapacityFactor, suggestedElectrolyzerPower, sizingRatioUsed,
              recommendationReason, errorMessage)
    }

    /** Whether the result panel is shown: a capacity factor or a power is set. */
    function ShowsResults(): bool
      reads this
    {
      solarCapacityFactor.Some? || suggestedElectrolyzerPower.Some?
    }

    /** Empty text fields (NaN once parsed) and the default ratio "0.80";
        no result and no message. */
    constructor ()
      ensures CurrentInputs() == Inputs(None, None, None, Some(0.80))
      ensures CurrentOutputs() == Cleared
    {
      solarFarmPeakPower := None;
      batteryStorageCapacity := None;
      annualSolarIrradiation := None;
      systemPerformanceRatio := Some(0.80);
      solarCapacityFactor := None;
      suggestedElectrolyzerPower := None;
      sizingRatioUsed := None;
      recommendationReason := NoReason;
      errorMessage := NoError;
    }

    /** Typing into one field replaces its parsed value and nothing else. */
    method SetInput(f: Field, v: Option<real>)
      modifies this
      ensures InputOf(CurrentInputs(), f) == v
      ensures forall g :: g != f ==> InputOf(CurrentInputs(), g) == InputOf(old(CurrentInputs()), g)
      ensures CurrentOutputs() == old(CurrentOutputs())
    {
      match f
      case SolarFarmPeakPower => solarFarmPeakPower := v;
      case BatteryStorageCapacity => batteryStorageCapacity := v;
      case AnnualSolarIrradiation => annualSolarIrradiation := v;
      case SystemPerformanceRatio => systemPerformanceRatio := v;
    }

    /** The "Calculate Electrolyzer Power" handler: clear the five outputs,
        check the inputs in order and stop at the first failure, otherwise
        set CF, ratio, power and reason one after the other. The inputs are
        left alone, and the outputs no longer depend on what they held. */
    method CalculateElectrolyzerPower()
      modifies this
      ensures CurrentInputs() == old(CurrentInputs())
      ensures CurrentOutputs() == Calculate(CurrentInputs())
      ensures ShowsResults() <==> errorMessage == NoError
    {
      solarCapacityFactor := None;
      suggestedElectrolyzerPower := None;
      sizingRatioUsed := None;
      recommendationReason := NoReason;
      errorMessage := NoError;

      var solarFarmPower := solarFarmPeakPower;
      var batteryCapacity := batteryStorageCapacity;
      var annualIrradiation := annualSolarIrradiation;
      var performanceRatio := systemPerformanceRatio;

      if solarFarmPower.None? || solarFarmPower.value <= 0.0 {
        errorMessage := InvalidInput(SolarFarmPeakPower);
        assert Validate(CurrentInputs()) == Failure(SolarFarmPeakPower);
        return;
      }
      if batteryCapacity.None? || batteryCapacity.value < 0.0 {
        errorMessage := InvalidInput(BatteryStorageCapacity);
        assert Validate(CurrentInputs()) == Failure(BatteryStorageCapacity);
        return;
      }
      if annualIrradiation.None? || annualIrradiation.value <= 0.0 {
        errorMessage := InvalidInput(AnnualSolarIrradiation);
        assert Validate(CurrentInputs()) == Failure(AnnualSolarIrradiation);
        return;
      }
      if performanceRatio.None? || performanceRatio.value <= 0.0 || performanceRatio.value > 1.0 {
        errorMessage := InvalidInput(SystemPerformanceRatio);
        assert Validate(CurrentInputs()) == Failure(SystemPerformanceRatio);
        return;
      }

      ghost var checked := CheckedInputs(solarFarmPower.value, batteryCapacity.value,
                                         annualIrradiation.value, performanceRatio.value);
      assert Validate(CurrentInputs()) == Success(checked);
      var calculatedCF := annualIrradiation.value * performanceRatio.value / TotalHoursInYear;
      assert calculatedCF == CapacityFactor(checked.annualIrradiation, checked.performanceRatio);
      solarCapacityFactor := Some(calculatedCF);

      var electrolyzerRatio: real;
      var reason: Reason;
      if calculatedCF >= CfThresholdForRatio {
        electrolyzerRatio := HighCfRatio;
        reason := HighCapacityFactor(ToFixed(calculatedCF * 100.0, 1));
      } else {
        electrolyzerRatio := LowCfRatio;
        reason := LowCapacityFactor(ToFixed(calculatedCF * 100.0, 1));
      }
      sizingRatioUsed := Some(electrolyzerRatio);

      var suggestedPower := solarFarmPower.value * electrolyzerRatio;
      suggestedElectrolyzerPower := Some(suggestedPower);
      recommendationReason := reason;
    }
  }

  /** Pressing "Calculate" twice in a row changes nothing the second time. */
  method CalculateTwice(t: SizingTool)
    modifies t
    ensures t.CurrentInputs() == old(t.CurrentInputs())
    ensures t.CurrentOutputs() == Calculate(old(t.CurrentInputs()))
  {
    t.CalculateElectrolyzerPower();
    var first := t.CurrentOutputs();
    t.CalculateElectrolyzerPower();
    assert t.CurrentOutputs() == first;
  }
}
