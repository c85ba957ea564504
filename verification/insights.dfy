/**
 The derived display values of the premium page: the BMI category with its colour,
 the three qualitative impact tiers shown beside an estimate, and the list of tips
 for lowering the premium.
 */
module Insights {
  import opened Wrappers
  import opened Thresholds
  import opened Inputs

  // ---------------------------------------------------------------- BMI category

  datatype BmiCategory = Underweight | Normal | Overweight | Obese
  {
    /** Position of the band on the BMI line, lowest first. */
    function Rank(): nat
    {
      match this
      case Underweight => 0
      case Normal => 1
      case Overweight => 2
      case Obese => 3
    }

    /** Text shown after "BMI Category:". */
    function Name(): string
    {
      match this
      case Underweight => "Underweight"
      case Normal => "Normal"
      case Overweight => "Overweight"
      case Obese => "Obese"
    }

    /** Colour of the category box. */
    function Colour(): string
    {
      match this
      case Underweight => "#fbbf24"
      case Normal => "#10b981"
      case Overweight => "#f59e0b"
      case Obese => "#ef4444"
    }
  }

  /** The half-open interval of the BMI line that a category stands for: each
      band contains its lower bound. */
  predicate InBand(c: BmiCategory, bmi: real)
  {
    match c
    case Underweight => bmi < 18.5
    case Normal => 18.5 <= bmi < 25.0
    case Overweight => 25.0 <= bmi < 30.0
    case Obese => 30.0 <= bmi
  }

  /** The category chain, checking the lowest band first. */
  function Categorize(bmi: real): (c: BmiCategory)
    ensures InBand(c, bmi)
  {
    if bmi < 18.5 then Underweight
    else if bmi < 25.0 then Normal
    else if bmi < 30.0 then Overweight
    else Obese
  }

  /** The four bands partition the line: the category the chain picks is the only
      one whose band contains the value. */
  lemma CategoryPartition(bmi: real, c: BmiCategory)
    ensures InBand(c, bmi) <==> c == Categorize(bmi)
  {
  }

  /** Lower bounds of the categories above Underweight, as a boundary table. */
  const CategoryTable: seq<Band<BmiCategory>> :=
    [Band(18.5, Normal), Band(25.0, Overweight), Band(30.0, Obese)]

  /** The chain agrees with the boundary table read with `>=`, so each boundary
      value belongs to the higher band. */
  lemma CategorizeMatchesTable(bmi: real)
    ensures Increasing(CategoryTable)
    ensures Categorize(bmi) == Classify(Underweight, CategoryTable, bmi, false)
  {
  }

  /** A larger BMI never gets a lower category. */
  lemma CategorizeMonotone(a: real, b: real)
    requires a <= b
    ensures Categorize(a).Rank() <= Categorize(b).Rank()
  {
    CategorizeMatchesTable(a);
    CategorizeMatchesTable(b);
    ClassifyMonotone((c: BmiCategory) => c.Rank() as int, Underweight, CategoryTable, a, b, false);
  }

  /** The four categories are told apart by both their name and their colour. */
  lemma CategoryDisplayDistinct(c: BmiCategory, d: BmiCategory)
    requires c != d
    ensures c.Name() != d.Name() && c.Colour() != d.Colour()
  {
  }

  // ---------------------------------------------------------------- impact tiers

  datatype Impact = Low | Medium | High
  {
    function Rank(): nat
    {
      match this
      case Low => 0
      case Medium => 1
      case High => 2
    }

    /** Text of the impact metric. */
    function Name(): string
    {
      match this
      case Low => "Low"
      case Medium => "Medium"
      case High => "High"
    }
  }

  /** The smoking metric has its own two tiers. */
  datatype SmokingImpact = NoImpact | VeryHigh
  {
    function Name(): string
    {
      match this
      case NoImpact => "None"
      case VeryHigh => "Very High"
    }
  }

  /** Age impact: High above 50, Medium above 35 up to 50, Low otherwise. */
  function AgeImpact(age: int): (r: Impact)
    ensures r == High <==> age > 50
    ensures r == Medium <==> 35 < age <= 50
    ensures r == Low <==> age <= 35
  {
    if age > 50 then High else if age > 35 then Medium else Low
  }

  /** BMI impact: High above 30, Medium above 25 up to 30, Low otherwise. */
  function BmiImpact(bmi: real): (r: Impact)
    ensures r == High <==> bmi > 30.0
    ensures r == Medium <==> 25.0 < bmi <= 30.0
    ensures r == Low <==> bmi <= 25.0
  {
    if bmi > 30.0 then High else if bmi > 25.0 then Medium else Low
  }

  /** Smoking impact: Very High for a smoker, None otherwise. */
  function SmokingImpactOf(smoker: Smoker): (r: SmokingImpact)
    ensures r == VeryHigh <==> smoker == Yes
    ensures r == NoImpact <==> smoker == No
  {
    match smoker
    case Yes => VeryHigh
    case No => NoImpact
  }

  /** Lower bounds of the Medium and High age tiers; read with `>`. */
  const AgeImpactTable: seq<Band<Impact>> := [Band(35.0, Medium), Band(50.0, High)]

  /** Lower bounds of the Medium and High BMI tiers; read with `>`. */
  const BmiImpactTable: seq<Band<Impact>> := [Band(25.0, Medium), Band(30.0, High)]

  /** The age chain agrees with its boundary table read strictly, so a boundary
      value belongs to the lower tier. */
  lemma AgeImpactMatchesTable(age: int)
    ensures Increasing(AgeImpactTable)
    ensures AgeImpact(age) == Classify(Low, AgeImpactTable, age as real, true)
  {
  }

  /** The BMI impact chain agrees with its boundary table read strictly. */
  lemma BmiImpactMatchesTable(bmi: real)
    ensures Increasing(BmiImpactTable)
    ensures BmiImpact(bmi) == Classify(Low, BmiImpactTable, bmi, true)
  {
  }

  /** An older applicant never gets a lower age impact. */
  lemma AgeImpactMonotone(a: int, b: int)
    requires a <= b
    ensures AgeImpact(a).Rank() <= AgeImpact(b).Rank()
  {
    AgeImpactMatchesTable(a);
    AgeImpactMatchesTable(b);
    ClassifyMonotone((t: Impact) => t.Rank() as int, Low, AgeImpactTable, a as real, b as real, true);
  }

  /** A larger BMI never gets a lower BMI impact. */
  lemma BmiImpactMonotone(a: real, b: real)
    requires a <= b
    ensures BmiImpact(a).Rank() <= BmiImpact(b).Rank()
  {
    BmiImpactMatchesTable(a);
    BmiImpactMatchesTable(b);
    ClassifyMonotone((t: Impact) => t.Rank() as int, Low, BmiImpactTable, a, b, true);
  }

  /** The impact tiers use strict boundaries while the categories use inclusive
      ones, so the two disagree at the shared bounds 25 and 30. */
  lemma ImpactAndCategoryDisagreeAtBounds()
    ensures Categorize(30.0) == Obese && BmiImpact(30.0) == Medium
    ensures Categorize(25.0) == Overweight && BmiImpact(25.0) == Low
  {
  }

  // ---------------------------------------------------------------- tips

  datatype Tip = QuitSmoking | HealthyWeight | CheckUps
  {
    /** Position of the tip in the list. */
    function Rank(): nat
    {
      match this
      case QuitSmoking => 0
      case HealthyWeight => 1
      case CheckUps => 2
    }

    /** The line of text for the tip. */
    function Text(): string
    {
      match this
      case QuitSmoking =>
        "\U{1F6AD} Quit smoking - This is the single biggest factor in reducing premiums"
      case HealthyWeight =>
        "\U{1F3C3}\U{200D}\U{2640}\U{FE0F} Maintain a healthy weight through diet and exercise"
      case CheckUps =>
        "\U{1FA7A} Regular health check-ups can help maintain good health"
    }
  }

  /** Each tip's own condition. The smoking tip goes with a "Very High" smoking
      impact and the weight tip with a BMI impact above Low; the check-up tip has a
      threshold (40) that no impact tier shares. */
  function Applies(t: Tip, q: Request): (b: bool)
    ensures t == QuitSmoking ==> (b <==> SmokingImpactOf(q.smoker) == VeryHigh)
    ensures t == HealthyWeight ==> (b <==> BmiImpact(q.bmi) != Low)
    ensures t == CheckUps ==> (b <==> q.age > 40)
  {
    match t
    case QuitSmoking => q.smoker == Yes
    case HealthyWeight => q.bmi > 25.0
    case CheckUps => q.age > 40
  }

  /** Every tip, in display order. */
  const AllTips: seq<Tip> := [QuitSmoking, HealthyWeight, CheckUps]

  /** Tips listed in strictly increasing rank. */
  predicate Ordered(ts: seq<Tip>)
  {
    forall i, j :: 0 <= i < j < |ts| ==> ts[i].Rank() < ts[j].Rank()
  }

  /** The tips of `ts` whose condition holds for `q`, in their order in `ts`. */
  function Select(ts: seq<Tip>, q: Request): (r: seq<Tip>)
    ensures |r| <= |ts|
    ensures forall t :: t in r <==> t in ts && Applies(t, q)
    ensures Ordered(ts) ==> Ordered(r)
    decreases |ts|
  {
    if |ts| == 0 then []
    else
      var rest := Select(ts[1..], q);
      assert forall t :: t in ts <==> t == ts[0] || t in ts[1..];
      if Applies(ts[0], q) then
        assert Ordered(ts) ==> forall t :: t in rest ==> ts[0].Rank() < t.Rank();
        [ts[0]] + rest
      else rest
  }

  /** Whether the tips section is shown: for a smoker or for BMI above 25. */
  function TipsShown(q: Request): (b: bool)
    ensures b <==> Applies(QuitSmoking, q) || Applies(HealthyWeight, q)
    ensures b <==> SmokingImpactOf(q.smoker) == VeryHigh || BmiImpact(q.bmi) != Low
  {
    q.smoker == Yes || q.bmi > 25.0
  }

  /** The tips section: absent unless it is shown; otherwise the list built by
      appending the smoking, weight and check-up tips, each when its own condition
      holds. */
  function Tips(q: Request): (r: Option<seq<Tip>>)
    ensures r.Some? <==> TipsShown(q)
    ensures r.Some? ==> 1 <= |r.value| <= 3 && Ordered(r.value)
    ensures r.Some? ==> forall t :: t in r.value <==> Applies(t, q)
  {
    if TipsShown(q) then
      var tips := [];
      var tips := if q.smoker == Yes then tips + [QuitSmoking] else tips;
      var tips := if q.bmi > 25.0 then tips + [HealthyWeight] else tips;
      var tips := if q.age > 40 then tips + [CheckUps] else tips;
      Some(tips)
    else
      None
  }

  /** An ordered list of tips is determined by which tips it holds. */
  lemma {:induction false} OrderedDeterminedByContents(a: seq<Tip>, b: seq<Tip>)
    requires Ordered(a) && Ordered(b)
    requires forall t :: t in a <==> t in b
    ensures a == b
    decreases |a| + |b|
  {
    assert |a| == 0 <==> |b| == 0 by {
      if |a| != 0 {
        assert a[0] in b;
      }
      if |b| != 0 {
        assert b[0] in a;
      }
    }
    if |a| != 0 {
      assert a[0] == b[0] by {
        assert a[0] in b;
        assert b[0] in a;
      }
      forall t
        ensures t in a[1..] <==> t in b[1..]
      {
        assert t in a <==> t == a[0] || t in a[1..];
        assert t in b <==> t == b[0] || t in b[1..];
        assert a[0] !in a[1..];
        assert b[0] !in b[1..];
      }
      OrderedDeterminedByContents(a[1..], b[1..]);
      assert a == [a[0]] + a[1..];
      assert b == [b[0]] + b[1..];
    }
  }

  /** Within the section, the list is exactly the table of tips filtered by their
      conditions. */
  lemma TipsAreSelection(q: Request)
    requires TipsShown(q)
    ensures Tips(q) == Some(Select(AllTips, q))
  {
    OrderedDeterminedByContents(Tips(q).value, Select(AllTips, q));
  }

  /** The check-up tip depends on the section being shown: a non-smoker with BMI at
      most 25 gets no tips at all, whatever the age. */
  lemma NoCheckUpWithoutSection(q: Request)
    requires q.smoker == No && q.bmi <= 25.0 && q.age > 40
    ensures Tips(q) == None
  {
  }
}
