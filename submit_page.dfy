/**
 * The project submission wizard (app/submit/page.tsx): the fixed price tables, the cost
 * estimator, the feature checkbox list and the four-step navigation.
 *
 * Multipliers are kept as integer tenths (1.5 is 15), so the estimator works on exact
 * rationals; `Math.round(x)` is `floor(x + 1/2)`.
 */
module SubmitPage {

  datatype Feature = Feature(name: string, cost: int)

  datatype WebsiteType = WebsiteType(value: string, caption: string, multiplierTenths: int)

  /** The FEATURES table, in source order. */
  const Features: seq<Feature> := [
    Feature("Responsive Design", 500),
    Feature("SEO Optimization", 300),
    Feature("Contact Forms", 200),
    Feature("E-commerce", 1500),
    Feature("Blog/CMS", 800),
    Feature("User Authentication", 600),
    Feature("Payment Integration", 1000),
    Feature("Analytics", 300),
    Feature("Social Media Integration", 250),
    Feature("Custom Functionality", 2000)
  ]

  /** The WEBSITE_TYPES table, in source order. */
  const WebsiteTypes: seq<WebsiteType> := [
    WebsiteType("BUSINESS", "Business Website", 10),
    WebsiteType("ECOMMERCE", "E-commerce Store", 15),
    WebsiteType("PORTFOLIO", "Portfolio Site", 8),
    WebsiteType("BLOG", "Blog/Content Site", 9),
    WebsiteType("CUSTOM", "Custom Application", 20)
  ]

  const BaseCost: int := 1000
  const PageCost: int := 200

  predicate DistinctNames(table: seq<Feature>)
  {
    forall i, j :: 0 <= i < j < |table| ==> table[i].name != table[j].name
  }

  predicate NamesIn(table: seq<Feature>, n: string)
  {
    exists i :: 0 <= i < |table| && table[i].name == n
  }

  /** The price of one feature name in a table: its cost, or 0 for a name the table does not list. */
  function PriceOf(table: seq<Feature>, n: string): (r: int)
    requires DistinctNames(table)
    ensures !NamesIn(table, n) ==> r == 0
    ensures forall i :: 0 <= i < |table| && table[i].name == n ==> r == table[i].cost
  {
    if table == [] then 0
    else if table[0].name == n then table[0].cost
    else PriceOf(table[1..], n)
  }

  /**
   * `FEATURES.filter((f) => features.includes(f.name)).reduce((sum, f) => sum + f.cost, 0)`:
   * the table is walked once, so each table row is added at most once.
   */
  function SelectedFeatureCost(table: seq<Feature>, features: seq<string>): int
  {
    if table == [] then 0
    else (if table[0].name in features then table[0].cost else 0) + SelectedFeatureCost(table[1..], features)
  }

  /** `WEBSITE_TYPES.find((t) => t.value === websiteType)?.multiplier || 1`, in tenths. */
  function MultiplierTenths(websiteType: string): (r: int)
    ensures r in {8, 9, 10, 15, 20}
    ensures websiteType == "BUSINESS" ==> r == 10
    ensures websiteType == "ECOMMERCE" ==> r == 15
    ensures websiteType == "PORTFOLIO" ==> r == 8
    ensures websiteType == "BLOG" ==> r == 9
    ensures websiteType == "CUSTOM" ==> r == 20
    ensures websiteType !in {"BUSINESS", "ECOMMERCE", "PORTFOLIO", "BLOG", "CUSTOM"} ==> r == 10
  {
    FindMultiplier(WebsiteTypes, websiteType)
  }

  /** The position of the first row whose value is `websiteType`, or `|types|` when none is. */
  function FirstTypeIndex(types: seq<WebsiteType>, websiteType: string): (k: nat)
    ensures k <= |types|
    ensures forall j :: 0 <= j < k ==> types[j].value != websiteType
    ensures k < |types| ==> types[k].value == websiteType
  {
    if types == [] || types[0].value == websiteType then 0
    else 1 + FirstTypeIndex(types[1..], websiteType)
  }

  /**
   * The first row whose value is `websiteType` decides, and a zero multiplier there falls back
   * to 1 like a missing row does.
   */
  function FindMultiplier(types: seq<WebsiteType>, websiteType: string): (r: int)
    ensures (forall i :: 0 <= i < |types| ==> types[i].value != websiteType) ==> r == 10
    ensures r == 10 || exists i :: 0 <= i < |types| && types[i].value == websiteType && r == types[i].multiplierTenths
    ensures var k := FirstTypeIndex(types, websiteType);
            k < |types| ==> r == (if types[k].multiplierTenths == 0 then 10 else types[k].multiplierTenths)
  {
    if types == [] then 10
    else if types[0].value == websiteType then (if types[0].multiplierTenths == 0 then 10 else types[0].multiplierTenths)
    else FindMultiplier(types[1..], websiteType)
  }

  /** `Math.round(num / den)` for a positive denominator: the floor of num / den + 1/2. */
  function RoundDiv(num: int, den: int): int
    requires den > 0
  {
    (2 * num + den) / (2 * den)
  }

  /** The cost before the multiplier: 1000 + 200 per page + the selected known features. */
  function BaseEstimate(pages: int, features: seq<string>): int
  {
    BaseCost + pages * PageCost + SelectedFeatureCost(Features, features)
  }

  /** `calculateEstimate(pages, features, websiteType)`. */
  function CalculateEstimate(pages: int, features: seq<string>, websiteType: string): int
  {
    RoundDiv(BaseEstimate(pages, features) * MultiplierTenths(websiteType), 10)
  }

  // ---------------------------------------------------------------------------------------
  // Facts about the feature table

  lemma FeatureNamesDistinct()
    ensures DistinctNames(Features)
  {
  }

  lemma {:induction false} SelectedCostMultipleOf50(table: seq<Feature>, features: seq<string>)
    requires forall i :: 0 <= i < |table| ==> table[i].cost % 50 == 0
    ensures SelectedFeatureCost(table, features) % 50 == 0
  {
    if table != [] {
      SelectedCostMultipleOf50(table[1..], features);
    }
  }

  /** The selected cost depends only on which table names the selection mentions. */
  lemma {:induction false} SelectedCostOnlyMembership(table: seq<Feature>, a: seq<string>, b: seq<string>)
    requires forall i :: 0 <= i < |table| ==> (table[i].name in a <==> table[i].name in b)
    ensures SelectedFeatureCost(table, a) == SelectedFeatureCost(table, b)
  {
    if table != [] {
      assert table[0].name in a <==> table[0].name in b;
      SelectedCostOnlyMembership(table[1..], a, b);
    }
  }

  /**
   * Adding one name to the selection adds that name's price if it was not selected yet,
   * and nothing if it was already selected or is not in the table.
   */
  lemma {:induction false} SelectedCostAddOne(table: seq<Feature>, features: seq<string>, f: string)
    requires DistinctNames(table)
    ensures SelectedFeatureCost(table, features + [f])
         == SelectedFeatureCost(table, features) + (if f in features then 0 else PriceOf(table, f))
  {
    if table != [] {
      var t := table[1..];
      assert DistinctNames(t) by {
        forall i, j | 0 <= i < j < |t| ensures t[i].name != t[j].name {
          assert t[i] == table[i + 1] && t[j] == table[j + 1];
        }
      }
      SelectedCostAddOne(t, features, f);
      assert table[0].name in features + [f] <==> table[0].name in features || table[0].name == f;
      if table[0].name == f {
        assert !NamesIn(t, f) by {
          forall i | 0 <= i < |t| ensures t[i].name != f { assert t[i] == table[i + 1]; }
        }
        SelectedCostNotMentioned(t, features, f);
      }
    }
  }

  /** Appending a name that no table row carries changes nothing. */
  lemma {:induction false} SelectedCostNotMentioned(table: seq<Feature>, features: seq<string>, f: string)
    requires !NamesIn(table, f)
    ensures SelectedFeatureCost(table, features + [f]) == SelectedFeatureCost(table, features)
  {
    if table != [] {
      assert table[0].name != f;
      assert table[0].name in features + [f] <==> table[0].name in features;
      assert !NamesIn(table[1..], f) by {
        forall i | 0 <= i < |table[1..]| ensures table[1..][i].name != f { assert table[1..][i] == table[i + 1]; }
      }
      SelectedCostNotMentioned(table[1..], features, f);
    }
  }

  /** With non-negative prices, selecting more names never lowers the selected cost. */
  lemma {:induction false} SelectedCostMonotone(table: seq<Feature>, a: seq<string>, b: seq<string>)
    requires forall i :: 0 <= i < |table| ==> table[i].cost >= 0
    requires forall n :: n in a ==> n in b
    ensures SelectedFeatureCost(table, a) <= SelectedFeatureCost(table, b)
  {
    if table != [] {
      SelectedCostMonotone(table[1..], a, b);
    }
  }

  // ---------------------------------------------------------------------------------------
  // Facts about the estimate

  /**
   * Rounding is exact: every base value is a multiple of 50, so base times the multiplier
   * is a whole number of dollars and `Math.round` leaves it as it is.
   */
  lemma EstimateIsExact(pages: int, features: seq<string>, websiteType: string)
    ensures BaseEstimate(pages, features) % 50 == 0
    ensures (BaseEstimate(pages, features) * MultiplierTenths(websiteType)) % 10 == 0
    ensures CalculateEstimate(pages, features, websiteType) * 10
         == BaseEstimate(pages, features) * MultiplierTenths(websiteType)
  {
    SelectedCostMultipleOf50(Features, features);
    var b := BaseEstimate(pages, features);
    var k := b / 50;
    assert b == 50 * k;
    RoundExactFifty(k, MultiplierTenths(websiteType));
  }

  /** A multiple of 50 times a multiplier in tenths is a whole number that rounding keeps. */
  lemma RoundExactFifty(k: int, m: int)
    requires m in {8, 9, 10, 15, 20}
    ensures (50 * k * m) % 10 == 0
    ensures RoundDiv(50 * k * m, 10) * 10 == 50 * k * m
  {
    var q := 5 * k * m;
    assert 50 * k * m == 10 * q by {
      if m == 8 { assert 50 * k * 8 == 10 * (5 * k * 8); }
      else if m == 9 { assert 50 * k * 9 == 10 * (5 * k * 9); }
      else if m == 10 { assert 50 * k * 10 == 10 * (5 * k * 10); }
      else if m == 15 { assert 50 * k * 15 == 10 * (5 * k * 15); }
      else { assert 50 * k * 20 == 10 * (5 * k * 20); }
    }
    assert RoundDiv(10 * q, 10) == q by {
      assert 2 * (10 * q) + 10 == 20 * q + 10;
    }
  }

  /**
   * The estimate in closed form: (1000 + 200 pages + the price of every distinct known
   * feature in the selection) times the multiplier.
   */
  lemma EstimateFormula(pages: int, features: seq<string>, websiteType: string)
    ensures CalculateEstimate(pages, features, websiteType) * 10
         == (1000 + 200 * pages + SelectedFeatureCost(Features, features)) * MultiplierTenths(websiteType)
  {
    EstimateIsExact(pages, features, websiteType);
  }

  /** For a fixed type and selection, more pages never lower the estimate. */
  lemma EstimateMonotoneInPages(p: int, q: int, features: seq<string>, websiteType: string)
    requires p <= q
    ensures CalculateEstimate(p, features, websiteType) <= CalculateEstimate(q, features, websiteType)
  {
    EstimateIsExact(p, features, websiteType);
    EstimateIsExact(q, features, websiteType);
    var m := MultiplierTenths(websiteType);
    assert BaseEstimate(p, features) <= BaseEstimate(q, features);
    assert BaseEstimate(p, features) * m <= BaseEstimate(q, features) * m;
  }

  /** For a fixed type and page count, selecting more features never lowers the estimate. */
  lemma EstimateMonotoneInFeatures(pages: int, a: seq<string>, b: seq<string>, websiteType: string)
    requires forall n :: n in a ==> n in b
    ensures CalculateEstimate(pages, a, websiteType) <= CalculateEstimate(pages, b, websiteType)
  {
    SelectedCostMonotone(Features, a, b);
    EstimateIsExact(pages, a, websiteType);
    EstimateIsExact(pages, b, websiteType);
    var m := MultiplierTenths(websiteType);
    assert BaseEstimate(pages, a) <= BaseEstimate(pages, b);
    assert BaseEstimate(pages, a) * m <= BaseEstimate(pages, b) * m;
  }

  /**
   * Checking feature f raises the estimate by exactly f's price times the multiplier, and by
   * nothing if f was already selected or is not a table feature.
   */
  lemma EstimateAddFeature(pages: int, features: seq<string>, f: string, websiteType: string)
    ensures CalculateEstimate(pages, features + [f], websiteType) * 10
         == CalculateEstimate(pages, features, websiteType) * 10
            + (if f in features then 0 else PriceOf(Features, f)) * MultiplierTenths(websiteType)
  {
    FeatureNamesDistinct();
    SelectedCostAddOne(Features, features, f);
    EstimateIsExact(pages, features, websiteType);
    EstimateIsExact(pages, features + [f], websiteType);
  }

  /** Five pages with Responsive Design, SEO Optimization and Contact Forms: 3000 and 4500. */
  lemma EstimateExamples()
    ensures CalculateEstimate(5, ["Responsive Design", "SEO Optimization", "Contact Forms"], "BUSINESS") == 3000
    ensures CalculateEstimate(5, ["Responsive Design", "SEO Optimization", "Contact Forms"], "ECOMMERCE") == 4500
    ensures CalculateEstimate(5, ["Responsive Design", "SEO Optimization", "Contact Forms"], "UNKNOWN") == 3000
  {
    var fs := ["Responsive Design", "SEO Optimization", "Contact Forms"];
    assert SelectedFeatureCost(Features[3..], fs) == 0 by {
      forall i | 0 <= i < |Features[3..]| ensures Features[3..][i].name !in fs { }
      SelectedCostOnlyMembership(Features[3..], fs, []);
      SelectedCostOfNothing(Features[3..]);
    }
    assert SelectedFeatureCost(Features, fs) == 1000 by {
      assert Features[1..][1..][1..] == Features[3..];
    }
    EstimateIsExact(5, fs, "BUSINESS");
    EstimateIsExact(5, fs, "ECOMMERCE");
    EstimateIsExact(5, fs, "UNKNOWN");
  }

  /** A non-negative page count never gives a negative estimate: at least 1000 times 0.8. */
  lemma EstimateNonNegative(pages: int, features: seq<string>, websiteType: string)
    requires 0 <= pages
    ensures CalculateEstimate(pages, features, websiteType) >= 800
    ensures CalculateEstimate(pages, features, websiteType) >= 0
  {
    SelectedCostNonNegative(Features, features);
    var b := BaseEstimate(pages, features);
    assert b >= 1000 by {
      assert pages * PageCost >= 0;
    }
    ProductAtLeast(b, MultiplierTenths(websiteType));
    EstimateIsExact(pages, features, websiteType);
  }

  lemma {:induction false} SelectedCostNonNegative(table: seq<Feature>, features: seq<string>)
    requires forall i :: 0 <= i < |table| ==> table[i].cost >= 0
    ensures SelectedFeatureCost(table, features) >= 0
  {
    if table != [] {
      SelectedCostNonNegative(table[1..], features);
    }
  }

  lemma ProductAtLeast(b: int, m: int)
    requires b >= 1000 && m >= 8
    ensures b * m >= 8000
  {
    assert b * m - 8000 == (b - 1000) * m + 1000 * (m - 8);
  }

  lemma {:induction false} SelectedCostOfNothing(table: seq<Feature>)
    ensures SelectedFeatureCost(table, []) == 0
  {
    if table != [] {
      SelectedCostOfNothing(table[1..]);
    }
  }

  // ---------------------------------------------------------------------------------------
  // Feature checkboxes and wizard steps

  /** `handleFeatureChange`: checking appends the name, unchecking drops every occurrence. */
  function ToggleFeature(selected: seq<string>, feature: string, checked: bool): (r: seq<string>)
    ensures checked ==> r == selected + [feature]
    ensures !checked ==> feature !in r && |r| <= |selected|
    ensures !checked ==> forall x :: x != feature ==> (x in r <==> x in selected)
    ensures !checked ==> multiset(r) == multiset(selected)[feature := 0]
  {
    if checked then selected + [feature] else Without(selected, feature)
  }

  /** `selectedFeatures.filter((f) => f !== feature)`. */
  function Without(s: seq<string>, feature: string): (r: seq<string>)
    ensures feature !in r && |r| <= |s|
    ensures forall x :: x != feature ==> (x in r <==> x in s)
    ensures multiset(r) == multiset(s)[feature := 0]
  {
    if s == [] then []
    else
      assert s == [s[0]] + s[1..];
      if s[0] == feature then Without(s[1..], feature)
      else [s[0]] + Without(s[1..], feature)
  }

  /**
   * Without keeps the remaining names in their original order: it distributes over
   * concatenation and leaves a list without the name untouched.
   */
  lemma {:induction false} WithoutKeepsOrder(a: seq<string>, b: seq<string>, feature: string)
    ensures Without(a + b, feature) == Without(a, feature) + Without(b, feature)
  {
    if a == [] {
      assert a + b == b;
    } else {
      var ab := a + b;
      assert ab[1..] == a[1..] + b;
      assert ab[0] == a[0];
      WithoutKeepsOrder(a[1..], b, feature);
      if a[0] == feature {
        assert Without(ab, feature) == Without(ab[1..], feature);
      } else {
        assert Without(ab, feature) == [a[0]] + Without(ab[1..], feature);
        assert Without(a, feature) == [a[0]] + Without(a[1..], feature);
      }
    }
  }

  /** Unchecking a name that is not selected leaves the selection as it is. */
  lemma {:induction false} WithoutAbsent(a: seq<string>, feature: string)
    requires feature !in a
    ensures Without(a, feature) == a
  {
    if a != [] {
      WithoutAbsent(a[1..], feature);
      assert a == [a[0]] + a[1..];
    }
  }

  /** Whether `nextStep` may advance from `step`, given the outcome of `form.trigger`. */
  function StepPasses(step: int, triggerOk: bool, selectedCount: nat): bool
  {
    if step == 1 then triggerOk
    else if step == 2 then triggerOk && selectedCount != 0
    else if step == 3 then triggerOk
    else false
  }

  /** The step after `nextStep`. */
  function NextStepOf(step: int, triggerOk: bool, selectedCount: nat): (r: int)
    requires 1 <= step <= 4
    ensures 1 <= r <= 4
    ensures r == step + 1 <==> step < 4 && triggerOk && (step != 2 || selectedCount != 0)
    ensures r != step + 1 ==> r == step
  {
    if StepPasses(step, triggerOk, selectedCount) && step < 4 then step + 1 else step
  }

  /** The step after `prevStep`. */
  function PrevStepOf(step: int): (r: int)
    requires 1 <= step <= 4
    ensures 1 <= r <= 4
    ensures step > 1 ==> r == step - 1
    ensures step == 1 ==> r == 1
  {
    if step > 1 then step - 1 else step
  }

  /** The wizard's state: the current step and the checked features (also the form's "features"). */
  class Wizard {
    var currentStep: int
    var selectedFeatures: seq<string>
    var formFeatures: seq<string>

    ghost predicate Valid()
      reads this
    {
      1 <= currentStep <= 4
    }

    constructor ()
      ensures Valid()
      ensures currentStep == 1 && selectedFeatures == [] && formFeatures == []
    {
      currentStep := 1;
      selectedFeatures := [];
      formFeatures := [];
    }

    /** `progress = (currentStep / 4) * 100`. */
    function Progress(): (r: int)
      requires Valid()
      reads this
      ensures 25 <= r <= 100 && r * 4 == currentStep * 100
    {
      currentStep * 25
    }

    method HandleFeatureChange(feature: string, checked: bool)
      modifies this`selectedFeatures, this`formFeatures
      ensures selectedFeatures == ToggleFeature(old(selectedFeatures), feature, checked)
      ensures formFeatures == selectedFeatures
    {
      var newFeatures := if checked then selectedFeatures + [feature] else Without(selectedFeatures, feature);
      selectedFeatures := newFeatures;
      formFeatures := newFeatures;
    }

    /** `nextStep`, with the result of `form.trigger` for the step's fields passed in. */
    method NextStep(triggerOk: bool) returns (advanced: bool)
      requires Valid()
      modifies this`currentStep
      ensures Valid()
      ensures currentStep == NextStepOf(old(currentStep), triggerOk, |selectedFeatures|)
      ensures advanced <==> currentStep == old(currentStep) + 1
    {
      var isValid := false;
      if currentStep == 1 {
        isValid := triggerOk;
      } else if currentStep == 2 {
        isValid := triggerOk;
        if isValid && |selectedFeatures| == 0 {
          isValid := false;
        }
      } else if currentStep == 3 {
        isValid := triggerOk;
      }
      advanced := false;
      if isValid && currentStep < 4 {
        currentStep := currentStep + 1;
        advanced := true;
      }
    }

    method PrevStep()
      requires Valid()
      modifies this`currentStep
      ensures Valid()
      ensures currentStep == PrevStepOf(old(currentStep))
    {
      if currentStep > 1 {
        currentStep := currentStep - 1;
      }
    }
  }
}
