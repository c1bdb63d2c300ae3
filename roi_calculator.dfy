/**
 * The ROI calculator: a five-entry multiplier table and the closed-form chain
 * weekly waste -> annual waste -> savings and revenue increase -> total
 * benefit -> ROI percentage and payback months.
 *
 * Amounts are exact reals; the component's double arithmetic is abstracted.
 * The number inputs are unconstrained (`Number(e.target.value)` accepts any
 * number), so no precondition restricts them.
 */
module ROICalculator {
  import opened Wrappers

  datatype ROIData = ROIData(
    currentRevenue: real,
    teamSize: real,
    hourlyRate: real,
    inefficiencyHours: real,
    projectType: string)

  datatype Multiplier = Multiplier(efficiency: real, revenue: real, cost: real)

  /** A payback period; `Infinite` is what the division yields when the benefit is zero. */
  datatype Payback = Months(months: real) | Infinite

  datatype ROIResults = ROIResults(
    costOfInefficiency: real,
    potentialSavings: real,
    revenueIncrease: real,
    roiPercentage: real,
    paybackMonths: Payback)

  const ProjectMultipliers: map<string, Multiplier> := map[
    "web-app" := Multiplier(1.2, 1.15, 25000.0),
    "mobile-app" := Multiplier(1.3, 1.25, 35000.0),
    "ai-automation" := Multiplier(2.5, 1.4, 45000.0),
    "ecommerce" := Multiplier(1.4, 1.35, 40000.0),
    "enterprise" := Multiplier(1.8, 1.3, 75000.0)
  ]

  /** The select offers exactly these five keys. */
  const SelectableTypes: seq<string> := ["web-app", "mobile-app", "ai-automation", "ecommerce", "enterprise"]

  const DefaultInputs: ROIData := ROIData(1000000.0, 10.0, 75.0, 20.0, "web-app")

  /** Every table entry improves efficiency and revenue and has a positive cost. */
  lemma TableEntriesPositive()
    ensures forall k :: k in ProjectMultipliers ==>
      ProjectMultipliers[k].efficiency > 1.0 && ProjectMultipliers[k].revenue > 1.0 && ProjectMultipliers[k].cost > 0.0
  {
  }

  /** Every option of the select resolves in the table, and the table has no other key. */
  lemma SelectableTypesAreTableKeys()
    ensures forall k :: k in SelectableTypes <==> k in ProjectMultipliers
  {
  }

  /** `inefficiencyHours * hourlyRate * teamSize * 52`. */
  function AnnualInefficiencyCost(data: ROIData): real
  {
    data.inefficiencyHours * data.hourlyRate * data.teamSize * 52.0
  }

  /** `projectCost / (totalBenefit / 12)`; dividing by a zero benefit gives `Infinity`. */
  function PaybackMonths(projectCost: real, totalBenefit: real): Payback
  {
    if totalBenefit == 0.0 then Infinite else Months(projectCost / (totalBenefit / 12.0))
  }

  /**
   * The arithmetic body of `calculateROI`; None when the project type is not a
   * table key (the component would then fail reading the missing entry, and
   * leave the previous results on screen).
   */
  function CalculateROI(data: ROIData): (r: Option<ROIResults>)
    ensures r.Some? <==> data.projectType in ProjectMultipliers
    ensures r.Some? ==> (ProjectMultipliers[data.projectType].cost > 0.0 &&
      r.value == ResultsFor(data, ProjectMultipliers[data.projectType]))
  {
    if data.projectType !in ProjectMultipliers then None
    else
      TableEntriesPositive();
      Some(ResultsFor(data, ProjectMultipliers[data.projectType]))
  }

  /** The chain of `const` bindings for a resolved table entry. */
  function ResultsFor(data: ROIData, multiplier: Multiplier): ROIResults
    requires multiplier.cost > 0.0
  {
    var annualInefficiencyCost := AnnualInefficiencyCost(data);
    var potentialSavings := annualInefficiencyCost * (multiplier.efficiency - 1.0);
    var revenueIncrease := data.currentRevenue * (multiplier.revenue - 1.0);
    var totalBenefit := potentialSavings + revenueIncrease;
    var roiPercentage := ((totalBenefit - multiplier.cost) / multiplier.cost) * 100.0;
    ROIResults(annualInefficiencyCost, potentialSavings, revenueIncrease, roiPercentage,
      PaybackMonths(multiplier.cost, totalBenefit))
  }

  function TotalBenefit(r: ROIResults): real
  {
    r.potentialSavings + r.revenueIncrease
  }

  predicate NonNegativeInputs(data: ROIData)
  {
    data.currentRevenue >= 0.0 && data.teamSize >= 0.0 && data.hourlyRate >= 0.0 && data.inefficiencyHours >= 0.0
  }

  predicate Improves(m: Multiplier)
  {
    m.efficiency > 1.0 && m.revenue > 1.0 && m.cost > 0.0
  }

  lemma MulNonNegative(a: real, b: real)
    requires a >= 0.0 && b >= 0.0
    ensures a * b >= 0.0
  {
  }

  /** Non-negative inputs give a non-negative waste, savings, increase and benefit. */
  lemma BenefitsNonNegative(data: ROIData, m: Multiplier)
    requires NonNegativeInputs(data) && Improves(m)
    ensures var r := ResultsFor(data, m);
      r.costOfInefficiency >= 0.0 && r.potentialSavings >= 0.0 && r.revenueIncrease >= 0.0 && TotalBenefit(r) >= 0.0
  {
    MulNonNegative(data.inefficiencyHours, data.hourlyRate);
    MulNonNegative(data.inefficiencyHours * data.hourlyRate, data.teamSize);
    var annual := AnnualInefficiencyCost(data);
    MulNonNegative(annual, m.efficiency - 1.0);
    MulNonNegative(data.currentRevenue, m.revenue - 1.0);
  }

  /** The ROI percentage is positive exactly when the benefit exceeds the project cost. */
  lemma RoiPositiveIffBenefitExceedsCost(data: ROIData, m: Multiplier)
    requires m.cost > 0.0
    ensures var r := ResultsFor(data, m);
      r.roiPercentage > 0.0 <==> TotalBenefit(r) > m.cost
  {
    var r := ResultsFor(data, m);
    var b := TotalBenefit(r);
    QuotientSign(b - m.cost, m.cost);
  }

  lemma QuotientSign(x: real, y: real)
    requires y > 0.0
    ensures x / y * 100.0 > 0.0 <==> x > 0.0
  {
    if x > 0.0 {
      assert x / y > 0.0;
    } else {
      assert x / y <= 0.0;
    }
  }

  /** A zero benefit never recovers the cost: the payback is infinite. */
  lemma ZeroBenefitNeverPaysBack(data: ROIData, m: Multiplier)
    requires m.cost > 0.0
    requires TotalBenefit(ResultsFor(data, m)) == 0.0
    ensures ResultsFor(data, m).paybackMonths == Infinite
  {
  }

  /** With a non-zero benefit, payback months × monthly benefit recovers the cost exactly. */
  lemma PaybackRecoversCost(data: ROIData, m: Multiplier)
    requires m.cost > 0.0
    requires TotalBenefit(ResultsFor(data, m)) != 0.0
    ensures var r := ResultsFor(data, m);
      r.paybackMonths.Months? && r.paybackMonths.months * (TotalBenefit(r) / 12.0) == m.cost
  {
  }

  /** Payback within a year exactly when the ROI is positive, for any inputs. */
  lemma PaybackWithinYearIffPositiveRoi(data: ROIData, m: Multiplier)
    requires m.cost > 0.0
    ensures var r := ResultsFor(data, m);
      (r.paybackMonths.Months? && 0.0 < r.paybackMonths.months < 12.0) <==> r.roiPercentage > 0.0
  {
    var r := ResultsFor(data, m);
    var b := TotalBenefit(r);
    RoiPositiveIffBenefitExceedsCost(data, m);
    if b != 0.0 {
      PaybackBelowYear(m.cost, b);
    }
  }

  lemma PaybackBelowYear(cost: real, benefit: real)
    requires cost > 0.0 && benefit != 0.0
    ensures 0.0 < cost / (benefit / 12.0) < 12.0 <==> benefit > cost
  {
    var monthly := benefit / 12.0;
    var p := cost / monthly;
    assert p * monthly == cost;
    if benefit > 0.0 {
      assert monthly > 0.0;
      assert p > 0.0;
      FactorBelowTwelve(p, monthly, cost, benefit);
    } else {
      assert p < 0.0;
    }
  }

  lemma FactorBelowTwelve(p: real, monthly: real, cost: real, benefit: real)
    requires monthly > 0.0
    requires p * monthly == cost && 12.0 * monthly == benefit
    ensures p < 12.0 <==> cost < benefit
  {
    if p < 12.0 {
      assert p * monthly < 12.0 * monthly;
    } else {
      assert p * monthly >= 12.0 * monthly;
    }
  }

  /** Non-negative inputs never give a negative payback. */
  lemma PaybackNeverNegative(data: ROIData, m: Multiplier)
    requires NonNegativeInputs(data) && Improves(m)
    ensures var p := ResultsFor(data, m).paybackMonths;
      p.Months? ==> p.months > 0.0
  {
    BenefitsNonNegative(data, m);
  }

  /**
   * The defaults (revenue 1,000,000, 10 people at 75 an hour wasting 20 hours,
   * a web app): waste 780000, savings 156000, increase 150000, ROI 1124%, and
   * a payback of 25000 / (306000 / 12) months.
   */
  lemma DefaultScenario()
    ensures CalculateROI(DefaultInputs) ==
      Some(ROIResults(780000.0, 156000.0, 150000.0, 1124.0, Months(25000.0 * 12.0 / 306000.0)))
  {
    var m := ProjectMultipliers["web-app"];
    assert m == Multiplier(1.2, 1.15, 25000.0);
    assert AnnualInefficiencyCost(DefaultInputs) == 780000.0;
  }
}
