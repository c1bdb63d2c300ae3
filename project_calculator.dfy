/**
 * The project cost estimator: three static rate tables, the estimate computed
 * from a selection over them, the feature toggle, and the component state that
 * recomputes the estimate whenever the selection changes.
 *
 * Multipliers are exact reals; the component's double arithmetic is abstracted.
 * `Math.round` on the non-negative amounts is modelled as `floor(x + 1/2)`.
 */
module ProjectCalculator {
  import opened Wrappers

  datatype ProjectType = ProjectType(id: string, name: string, multiplier: real)
  datatype ComplexityLevel = ComplexityLevel(id: string, name: string, multiplier: real, description: string)
  datatype Feature = Feature(id: string, name: string, cost: nat, weeks: nat)

  /** The user's selection: `type` and `complexity` are "" until chosen. */
  datatype ProjectData = ProjectData(projectType: string, complexity: string, features: seq<string>)

  datatype Confidence = High | Medium | Low

  datatype EstimateResult = EstimateResult(minCost: int, maxCost: int, minWeeks: int, maxWeeks: int, confidence: Confidence)

  const ProjectTypes: seq<ProjectType> := [
    ProjectType("web", "Web Application", 1.0),
    ProjectType("mobile", "Mobile App (Flutter)", 1.2),
    ProjectType("ecommerce", "E-commerce Platform", 1.5),
    ProjectType("ai", "AI/Automation Solution", 1.8),
    ProjectType("enterprise", "Enterprise System", 2.0)
  ]

  const ComplexityLevels: seq<ComplexityLevel> := [
    ComplexityLevel("simple", "Simple", 1.0, "Basic functionality, standard design"),
    ComplexityLevel("moderate", "Moderate", 1.5, "Custom features, integrations"),
    ComplexityLevel("complex", "Complex", 2.0, "Advanced features, multiple integrations"),
    ComplexityLevel("enterprise", "Enterprise", 3.0, "Highly complex, scalable architecture")
  ]

  const AvailableFeatures: seq<Feature> := [
    Feature("auth", "User Authentication", 2000, 1),
    Feature("payment", "Payment Integration", 3000, 2),
    Feature("admin", "Admin Dashboard", 4000, 2),
    Feature("api", "REST API", 3500, 2),
    Feature("realtime", "Real-time Features", 5000, 3),
    Feature("analytics", "Analytics Integration", 2500, 1)
  ]

  /** Every multiplier in the two multiplier tables is at least 1. */
  lemma MultipliersAtLeastOne()
    ensures forall t :: t in ProjectTypes ==> t.multiplier >= 1.0
    ensures forall c :: c in ComplexityLevels ==> c.multiplier >= 1.0
  {
  }

  /** `projectTypes.find(p => p.id === id)`: the first entry with that id, if any. */
  function FindType(types: seq<ProjectType>, id: string): (r: Option<ProjectType>)
    ensures r.Some? <==> exists k :: 0 <= k < |types| && types[k].id == id
    ensures r.Some? ==> r.value in types && r.value.id == id
  {
    if types == [] then None
    else if types[0].id == id then Some(types[0])
    else FindType(types[1..], id)
  }

  /** `complexityLevels.find(c => c.id === id)`. */
  function FindComplexity(levels: seq<ComplexityLevel>, id: string): (r: Option<ComplexityLevel>)
    ensures r.Some? <==> exists k :: 0 <= k < |levels| && levels[k].id == id
    ensures r.Some? ==> r.value in levels && r.value.id == id
  {
    if levels == [] then None
    else if levels[0].id == id then Some(levels[0])
    else FindComplexity(levels[1..], id)
  }

  /**
   * `availableFeatures.filter(f => ids.includes(f.id))`: the table entries whose
   * id is selected, in table order; the selection's own order, duplicates and
   * unknown ids play no part.
   */
  function SelectedFeatures(table: seq<Feature>, ids: seq<string>): (r: seq<Feature>)
    ensures |r| <= |table|
    ensures forall f :: f in r <==> f in table && f.id in ids
  {
    if table == [] then []
    else if table[0].id in ids then [table[0]] + SelectedFeatures(table[1..], ids)
    else SelectedFeatures(table[1..], ids)
  }

  /** `selectedFeatures.reduce((sum, f) => sum + f.cost, 0)`. */
  function FeatureCost(fs: seq<Feature>): nat
  {
    if fs == [] then 0 else fs[0].cost + FeatureCost(fs[1..])
  }

  /** `selectedFeatures.reduce((sum, f) => sum + f.weeks, 0)`. */
  function FeatureWeeks(fs: seq<Feature>): nat
  {
    if fs == [] then 0 else fs[0].weeks + FeatureWeeks(fs[1..])
  }

  /** `Math.round` for the non-negative amounts the estimator produces. */
  function Round(x: real): int
  {
    (x + 0.5).Floor
  }

  lemma RoundMonotone(x: real, y: real)
    requires x <= y
    ensures Round(x) <= Round(y)
  {
  }

  /** Confidence with the component's two overwriting assignments. */
  function ConfidenceFor(typeId: string, complexityId: string, featureCount: nat): (c: Confidence)
    ensures c == Low <==> typeId == "ai" || featureCount > 5
    ensures c == Medium <==> !(typeId == "ai" || featureCount > 5) && (featureCount > 3 || complexityId == "enterprise")
    ensures c == High <==> typeId != "ai" && featureCount <= 3 && complexityId != "enterprise"
  {
    var afterFirst := if featureCount > 3 || complexityId == "enterprise" then Medium else High;
    if typeId == "ai" || featureCount > 5 then Low else afterFirst
  }

  /** The factor applied to the base cost and weeks: type multiplier × complexity multiplier. */
  function Scale(t: ProjectType, c: ComplexityLevel): real
  {
    t.multiplier * c.multiplier
  }

  /** The cost before the ±20% range: a base of 15000 scaled, plus the selected features' costs. */
  function TotalCost(scale: real, ids: seq<string>): real
  {
    15000.0 * scale + FeatureCost(SelectedFeatures(AvailableFeatures, ids)) as real
  }

  /** The duration before the ±20% range: a base of 6 weeks scaled, plus the selected features' weeks. */
  function TotalWeeks(scale: real, ids: seq<string>): real
  {
    6.0 * scale + FeatureWeeks(SelectedFeatures(AvailableFeatures, ids)) as real
  }

  /**
   * What `calculateEstimate` writes into `estimate` for a selection, or None
   * when the type or the complexity does not resolve (it then returns early).
   */
  function Estimate(data: ProjectData): (r: Option<EstimateResult>)
    ensures r.Some? <==>
      (exists k :: 0 <= k < |ProjectTypes| && ProjectTypes[k].id == data.projectType) &&
      (exists k :: 0 <= k < |ComplexityLevels| && ComplexityLevels[k].id == data.complexity)
    ensures r.Some? ==> r.value.confidence == ConfidenceFor(data.projectType, data.complexity, |data.features|)
  {
    var t := FindType(ProjectTypes, data.projectType);
    var c := FindComplexity(ComplexityLevels, data.complexity);
    if t.None? || c.None? then None
    else Some(EstimateFor(t.value, c.value, data.features))
  }

  /** The estimate for resolved table entries: ±20% around the totals, rounded. */
  function EstimateFor(t: ProjectType, c: ComplexityLevel, ids: seq<string>): EstimateResult
  {
    var scale := Scale(t, c);
    var cost := TotalCost(scale, ids);
    var weeks := TotalWeeks(scale, ids);
    EstimateResult(
      Round(cost * 0.8), Round(cost * 1.2),
      Round(weeks * 0.8), Round(weeks * 1.2),
      ConfidenceFor(t.id, c.id, |ids|))
  }

  /** `prev.features.includes(id) ? prev.features.filter(f => f !== id) : [...prev.features, id]`. */
  function ToggleFeature(features: seq<string>, id: string): (r: seq<string>)
    ensures id in features ==> id !in r
    ensures id !in features ==> r == features + [id]
    ensures forall x :: x != id ==> (x in r <==> x in features)
    ensures NoDuplicates(features) ==> NoDuplicates(r)
  {
    if id in features then RemoveAll(features, id) else features + [id]
  }

  /** `features.filter(f => f !== id)`. */
  function RemoveAll(features: seq<string>, id: string): (r: seq<string>)
    ensures id !in r
    ensures forall x :: x != id ==> (x in r <==> x in features)
    ensures NoDuplicates(features) ==> NoDuplicates(r)
  {
    if features == [] then []
    else if features[0] == id then RemoveAll(features[1..], id)
    else
      var rest := RemoveAll(features[1..], id);
      assert NoDuplicates(features) ==> features[0] !in features[1..];
      [features[0]] + rest
  }

  predicate NoDuplicates(s: seq<string>)
  {
    forall i, j :: 0 <= i < j < |s| ==> s[i] != s[j]
  }

  /** Toggling the same id twice restores which ids are selected. */
  lemma ToggleTwiceRestoresMembership(features: seq<string>, id: string)
    ensures forall x :: x in ToggleFeature(ToggleFeature(features, id), id) <==> x in features
  {
  }

  /** A larger selection (as a set of ids) never selects fewer features, so never costs less. */
  lemma {:induction false} SelectionMonotone(table: seq<Feature>, a: seq<string>, b: seq<string>)
    requires forall x :: x in a ==> x in b
    ensures FeatureCost(SelectedFeatures(table, a)) <= FeatureCost(SelectedFeatures(table, b))
    ensures FeatureWeeks(SelectedFeatures(table, a)) <= FeatureWeeks(SelectedFeatures(table, b))
  {
    if table != [] {
      SelectionMonotone(table[1..], a, b);
    }
  }

  /** Only the set of selected ids matters: order, duplicates and unknown ids do not. */
  lemma {:induction false} SelectionDependsOnlyOnMembership(table: seq<Feature>, a: seq<string>, b: seq<string>)
    requires forall x :: x in a <==> x in b
    ensures SelectedFeatures(table, a) == SelectedFeatures(table, b)
  {
    if table != [] {
      SelectionDependsOnlyOnMembership(table[1..], a, b);
    }
  }

  /** An id that names no table entry adds nothing to the estimate's sums. */
  lemma {:induction false} UnknownIdIgnored(table: seq<Feature>, ids: seq<string>, id: string)
    requires forall f :: f in table ==> f.id != id
    ensures SelectedFeatures(table, ids + [id]) == SelectedFeatures(table, ids)
  {
    if table != [] {
      assert table[0] in table;
      UnknownIdIgnored(table[1..], ids, id);
    }
  }

  /** Both ends of a ±20% range around a non-negative total are ordered and non-negative. */
  lemma RangeOrdered(total: real)
    requires total >= 0.0
    ensures 0 <= Round(total * 0.8) <= Round(total * 1.2)
  {
    RoundMonotone(0.0, total * 0.8);
    RoundMonotone(total * 0.8, total * 1.2);
  }

  lemma ProductAtLeastOne(a: real, b: real)
    requires a >= 1.0 && b >= 1.0
    ensures a * b >= 1.0
  {
    assert a * b >= a * 1.0;
  }

  /** Every estimate is a well-ordered, non-negative range. */
  lemma EstimateRangesOrdered(data: ProjectData)
    requires Estimate(data).Some?
    ensures 0 <= Estimate(data).value.minCost <= Estimate(data).value.maxCost
    ensures 0 <= Estimate(data).value.minWeeks <= Estimate(data).value.maxWeeks
  {
    MultipliersAtLeastOne();
    var t := FindType(ProjectTypes, data.projectType).value;
    var c := FindComplexity(ComplexityLevels, data.complexity).value;
    EstimateForOrdered(t, c, data.features);
  }

  lemma EstimateForOrdered(t: ProjectType, c: ComplexityLevel, ids: seq<string>)
    requires t.multiplier >= 1.0 && c.multiplier >= 1.0
    ensures var e := EstimateFor(t, c, ids);
      0 <= e.minCost <= e.maxCost && 0 <= e.minWeeks <= e.maxWeeks
  {
    var scale := Scale(t, c);
    assert scale >= 1.0 by {
      ProductAtLeastOne(t.multiplier, c.multiplier);
    }
    TotalsRangesOrdered(scale, ids);
  }

  lemma TotalsRangesOrdered(scale: real, ids: seq<string>)
    requires scale >= 1.0
    ensures 0 <= Round(TotalCost(scale, ids) * 0.8) <= Round(TotalCost(scale, ids) * 1.2)
    ensures 0 <= Round(TotalWeeks(scale, ids) * 0.8) <= Round(TotalWeeks(scale, ids) * 1.2)
  {
    RangeOrdered(TotalCost(scale, ids));
    RangeOrdered(TotalWeeks(scale, ids));
  }

  /** Selecting one more feature never lowers any bound of the estimate. */
  lemma AddingFeatureNeverLowersEstimate(data: ProjectData, id: string)
    requires Estimate(data).Some?
    ensures var more := Estimate(data.(features := data.features + [id]));
      more.Some? &&
      Estimate(data).value.minCost <= more.value.minCost &&
      Estimate(data).value.maxCost <= more.value.maxCost &&
      Estimate(data).value.minWeeks <= more.value.minWeeks &&
      Estimate(data).value.maxWeeks <= more.value.maxWeeks
  {
    var ids := data.features;
    var t := FindType(ProjectTypes, data.projectType).value;
    var c := FindComplexity(ComplexityLevels, data.complexity).value;
    MoreIdsNeverLowerEstimate(t, c, ids, ids + [id]);
  }

  lemma MoreIdsNeverLowerEstimate(t: ProjectType, c: ComplexityLevel, a: seq<string>, b: seq<string>)
    requires forall x :: x in a ==> x in b
    ensures var e, e' := EstimateFor(t, c, a), EstimateFor(t, c, b);
      e.minCost <= e'.minCost && e.maxCost <= e'.maxCost &&
      e.minWeeks <= e'.minWeeks && e.maxWeeks <= e'.maxWeeks
  {
    SelectionMonotone(AvailableFeatures, a, b);
    var scale := Scale(t, c);
    var cost, cost' := TotalCost(scale, a), TotalCost(scale, b);
    var weeks, weeks' := TotalWeeks(scale, a), TotalWeeks(scale, b);
    RoundMonotone(cost * 0.8, cost' * 0.8);
    RoundMonotone(cost * 1.2, cost' * 1.2);
    RoundMonotone(weeks * 0.8, weeks' * 0.8);
    RoundMonotone(weeks * 1.2, weeks' * 1.2);
  }

  /** More selected features never raise the confidence label. */
  lemma ConfidenceNeverRisesWithMoreFeatures(typeId: string, complexityId: string, n: nat, m: nat)
    requires n <= m
    ensures Rank(ConfidenceFor(typeId, complexityId, m)) <= Rank(ConfidenceFor(typeId, complexityId, n))
  {
  }

  function Rank(c: Confidence): nat
  {
    match c
    case High => 2
    case Medium => 1
    case Low => 0
  }

  /** Web application, simple, no features: 12000-18000 over 5-7 weeks, high confidence. */
  lemma WebSimpleNoFeatures()
    ensures Estimate(ProjectData("web", "simple", [])) == Some(EstimateResult(12000, 18000, 5, 7, High))
  {
    assert FindType(ProjectTypes, "web") == Some(ProjectTypes[0]);
    assert FindComplexity(ComplexityLevels, "simple") == Some(ComplexityLevels[0]);
    WebSimpleTotals();
  }

  lemma WebSimpleTotals()
    ensures EstimateFor(ProjectTypes[0], ComplexityLevels[0], []) == EstimateResult(12000, 18000, 5, 7, High)
  {
    assert SelectedFeatures(AvailableFeatures, []) == [];
    assert Scale(ProjectTypes[0], ComplexityLevels[0]) == 1.0;
    assert TotalCost(1.0, []) == 15000.0;
    assert TotalWeeks(1.0, []) == 6.0;
  }

  /** AI solution, enterprise complexity, authentication: 66400-99600 over 27-40 weeks, low confidence. */
  lemma AiEnterpriseWithAuth()
    ensures Estimate(ProjectData("ai", "enterprise", ["auth"])) == Some(EstimateResult(66400, 99600, 27, 40, Low))
  {
    AiLookup();
    EnterpriseLookup();
    AiEnterpriseTotals();
  }

  lemma AiLookup()
    ensures FindType(ProjectTypes, "ai") == Some(ProjectTypes[3])
  {
    assert FindType(ProjectTypes[3..], "ai") == Some(ProjectTypes[3]);
  }

  lemma EnterpriseLookup()
    ensures FindComplexity(ComplexityLevels, "enterprise") == Some(ComplexityLevels[3])
  {
    assert FindComplexity(ComplexityLevels[3..], "enterprise") == Some(ComplexityLevels[3]);
  }

  lemma AiEnterpriseTotals()
    ensures EstimateFor(ProjectTypes[3], ComplexityLevels[3], ["auth"]) == EstimateResult(66400, 99600, 27, 40, Low)
  {
    AuthOnlySelectsAuth();
    var auth := AvailableFeatures[0];
    assert auth.cost == 2000 && auth.weeks == 1;
    assert FeatureCost([auth]) == 2000;
    assert FeatureWeeks([auth]) == 1;
    assert Scale(ProjectTypes[3], ComplexityLevels[3]) == 5.4;
    assert TotalCost(5.4, ["auth"]) == 83000.0;
    assert TotalWeeks(5.4, ["auth"]) == 33.4;
  }

  lemma AuthOnlySelectsAuth()
    ensures SelectedFeatures(AvailableFeatures, ["auth"]) == [AvailableFeatures[0]]
  {
    NothingSelected(AvailableFeatures[1..], ["auth"]);
  }

  lemma {:induction false} NothingSelected(table: seq<Feature>, ids: seq<string>)
    requires forall f :: f in table ==> f.id !in ids
    ensures SelectedFeatures(table, ids) == []
  {
    if table != [] {
      assert table[0] in table;
      NothingSelected(table[1..], ids);
    }
  }

  /**
   * The first half of `calculateEstimate` once both ids have resolved: scale
   * the base cost and weeks by both multipliers, then add the features.
   */
  method ComputeTotals(baseProject: ProjectType, complexity: ComplexityLevel, features: seq<string>)
    returns (baseCost: real, baseWeeks: real)
    ensures baseCost == TotalCost(Scale(baseProject, complexity), features)
    ensures baseWeeks == TotalWeeks(Scale(baseProject, complexity), features)
  {
    var scale := Scale(baseProject, complexity);
    baseCost := 15000.0;
    baseWeeks := 6.0;
    baseCost := baseCost * scale;
    baseWeeks := baseWeeks * scale;
    assert baseCost == 15000.0 * scale && baseWeeks == 6.0 * scale;

    var selectedFeatures := SelectedFeatures(AvailableFeatures, features);
    baseCost := baseCost + FeatureCost(selectedFeatures) as real;
    baseWeeks := baseWeeks + FeatureWeeks(selectedFeatures) as real;
  }

  /**
   * The body of `calculateEstimate` once both ids have resolved: the totals,
   * the ±20% range, and the confidence label set by two overwriting assignments.
   */
  method ComputeEstimate(baseProject: ProjectType, complexity: ComplexityLevel, features: seq<string>)
    returns (result: EstimateResult)
    ensures result == EstimateFor(baseProject, complexity, features)
  {
    var baseCost, baseWeeks := ComputeTotals(baseProject, complexity, features);

    var minCost := Round(baseCost * 0.8);
    var maxCost := Round(baseCost * 1.2);
    var minWeeks := Round(baseWeeks * 0.8);
    var maxWeeks := Round(baseWeeks * 1.2);

    var confidence := High;
    if |features| > 3 || complexity.id == "enterprise" {
      confidence := Medium;
    }
    if baseProject.id == "ai" || |features| > 5 {
      confidence := Low;
    }

    result := EstimateResult(minCost, maxCost, minWeeks, maxWeeks, confidence);
  }

  /**
   * The component state: the selection and the last estimate written by
   * `calculateEstimate`. Every handler replaces `projectData`, and the effect
   * then recomputes the estimate when both a type and a complexity are chosen.
   */
  class Calculator {
    var projectData: ProjectData
    var estimate: Option<EstimateResult>

    /** Every estimate on record has ordered, non-negative ranges. */
    predicate Valid()
      reads this
    {
      estimate.Some? ==>
        0 <= estimate.value.minCost <= estimate.value.maxCost
        && 0 <= estimate.value.minWeeks <= estimate.value.maxWeeks
    }

    constructor ()
      ensures projectData == ProjectData("", "", [])
      ensures estimate == None
      ensures Valid()
    {
      projectData := ProjectData("", "", []);
      estimate := None;
    }

    /** Whether the result panel is on screen: an estimate exists and both choices are made. */
    function ShowsEstimate(): (r: bool)
      requires Valid()
      reads this
      ensures r <==> estimate.Some? && projectData.projectType != "" && projectData.complexity != ""
      ensures r ==> (estimate.Some? && estimate.value.minCost <= estimate.value.maxCost
                     && estimate.value.minWeeks <= estimate.value.maxWeeks)
    {
      estimate.Some? && projectData.projectType != "" && projectData.complexity != ""
    }

    /**
     * `calculateEstimate`: resolve both ids or return leaving the old estimate
     * in place, otherwise write the freshly computed estimate.
     */
    method CalculateEstimate()
      requires Valid()
      modifies this`estimate
      ensures Valid()
      ensures estimate == (if Estimate(projectData).Some? then Estimate(projectData) else old(estimate))
    {
      var baseProject := FindType(ProjectTypes, projectData.projectType);
      var complexity := FindComplexity(ComplexityLevels, projectData.complexity);
      if baseProject.None? || complexity.None? {
        return;
      }
      var result := ComputeEstimate(baseProject.value, complexity.value, projectData.features);
      EstimateRangesOrdered(projectData);
      estimate := Some(result);
    }

    /** The effect that runs after every change of `projectData`. */
    method RecomputeIfReady()
      requires Valid()
      modifies this`estimate
      ensures Valid()
      ensures projectData.projectType != "" && projectData.complexity != "" && Estimate(projectData).Some?
        ==> estimate == Estimate(projectData)
      ensures !(projectData.projectType != "" && projectData.complexity != "" && Estimate(projectData).Some?)
        ==> estimate == old(estimate)
    {
      if projectData.projectType != "" && projectData.complexity != "" {
        CalculateEstimate();
      }
    }

    /** Clicking a project-type card. */
    method SelectProjectType(id: string)
      requires Valid()
      modifies this
      ensures Valid()
      ensures projectData == old(projectData).(projectType := id)
      ensures Estimate(projectData).Some? && projectData.complexity != "" && id != ""
        ==> estimate == Estimate(projectData)
      ensures !(Estimate(projectData).Some? && projectData.complexity != "" && id != "")
        ==> estimate == old(estimate)
    {
      projectData := projectData.(projectType := id);
      RecomputeIfReady();
    }

    /** Clicking a complexity card. */
    method SelectComplexity(id: string)
      requires Valid()
      modifies this
      ensures Valid()
      ensures projectData == old(projectData).(complexity := id)
      ensures Estimate(projectData).Some? && projectData.projectType != "" && id != ""
        ==> estimate == Estimate(projectData)
      ensures !(Estimate(projectData).Some? && projectData.projectType != "" && id != "")
        ==> estimate == old(estimate)
    {
      projectData := projectData.(complexity := id);
      RecomputeIfReady();
    }

    /** `handleFeatureToggle` followed by the effect. */
    method HandleFeatureToggle(featureId: string)
      requires Valid()
      modifies this
      ensures Valid()
      ensures projectData == old(projectData).(features := ToggleFeature(old(projectData).features, featureId))
      ensures projectData.projectType != "" && projectData.complexity != "" && Estimate(projectData).Some?
        ==> estimate == Estimate(projectData)
      ensures !(projectData.projectType != "" && projectData.complexity != "" && Estimate(projectData).Some?)
        ==> estimate == old(estimate)
    {
      projectData := projectData.(features := ToggleFeature(projectData.features, featureId));
      RecomputeIfReady();
    }
  }
}
