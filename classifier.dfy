/** The BMI formula and the threshold classifier (bmi_backendwithgui.py,
    `calculate_bmi` and `bmi_category`). BMI values are exact `real`s: the
    IEEE doubles of the Python code are idealised. */
module Classifier {
  import opened Results

  const HeightCannotBeZero := "Height cannot be zero."

  /** `calculate_bmi`: refuses a height of exactly zero and nothing else
      (negative weights and heights go through); otherwise the result is the
      number that, times the squared height, gives the weight back. */
  function CalculateBmi(weightKg: real, heightM: real): (r: Result<real>)
    ensures r.Err? <==> heightM == 0.0
    ensures r.Err? ==> r.msg == HeightCannotBeZero
    ensures r.Ok? ==> r.value * (heightM * heightM) == weightKg
  {
    if heightM == 0.0 then Err(HeightCannotBeZero)
    else Ok(weightKg / (heightM * heightM))
  }

  datatype Category = Underweight | NormalWeight | Overweight | Obese

  /** The four strings `bmi_category` can return. */
  const Labels: set<string> := {"Underweight", "Normal Weight", "Overweight", "Obese"}

  /** The string `bmi_category` returns for each category: always one of
      the four labels. */
  function Label(c: Category): (s: string)
    ensures s in Labels
  {
    match c
    case Underweight => "Underweight"
    case NormalWeight => "Normal Weight"
    case Overweight => "Overweight"
    case Obese => "Obese"
  }

  /** The order of the categories from lightest to heaviest. */
  function Severity(c: Category): nat {
    match c
    case Underweight => 0
    case NormalWeight => 1
    case Overweight => 2
    case Obese => 3
  }

  /** `bmi_category`. Every BMI gets exactly one category, and the band
      [24.9, 25.0) between the "Normal Weight" and "Overweight" tests falls
      through to "Obese". */
  function BmiCategory(bmi: real): (c: Category)
    ensures c == Underweight <==> bmi < 18.5
    ensures c == NormalWeight <==> 18.5 <= bmi < 24.9
    ensures c == Overweight <==> 25.0 <= bmi < 29.9
    ensures c == Obese <==> (24.9 <= bmi < 25.0 || 29.9 <= bmi)
  {
    if bmi < 18.5 then Underweight
    else if 18.5 <= bmi < 24.9 then NormalWeight
    else if 25.0 <= bmi < 29.9 then Overweight
    else Obese
  }

  /** The four labels are distinct, so a label names one category. */
  lemma LabelsDistinct(c: Category, d: Category)
    ensures Label(c) == Label(d) <==> c == d
  {
  }

  /** Each of the four labels is returned for some BMI. */
  lemma EveryLabelIsReturned()
    ensures forall l :: l in Labels ==> exists bmi: real :: Label(BmiCategory(bmi)) == l
  {
    assert Label(BmiCategory(18.0)) == "Underweight";
    assert Label(BmiCategory(22.0)) == "Normal Weight";
    assert Label(BmiCategory(27.0)) == "Overweight";
    assert Label(BmiCategory(30.0)) == "Obese";
  }

  /** The category is not monotone in the BMI: a lighter BMI can land in a
      heavier category than a larger one. */
  lemma CategoryNotMonotone()
    ensures exists x: real, y: real :: x < y && Severity(BmiCategory(y)) < Severity(BmiCategory(x))
  {
    assert 24.95 < 25.0 && Severity(BmiCategory(25.0)) < Severity(BmiCategory(24.95));
  }

  /** The gap is the only source of that: whenever a larger BMI gets a
      lighter category, the smaller one lies in [24.9, 25.0) and the larger
      one is "Overweight". Outside the gap the category never goes down. */
  lemma OnlyTheGapInverts(x: real, y: real)
    requires x <= y
    requires Severity(BmiCategory(y)) < Severity(BmiCategory(x))
    ensures 24.9 <= x < 25.0
    ensures BmiCategory(y) == Overweight
  {
  }

  /** The classifier on sample values; 24.95 lies in the gap. */
  lemma CategoryExamples()
    ensures BmiCategory(18.0) == Underweight && Label(BmiCategory(18.0)) == "Underweight"
    ensures BmiCategory(22.0) == NormalWeight && Label(BmiCategory(22.0)) == "Normal Weight"
    ensures BmiCategory(24.95) == Obese && Label(BmiCategory(24.95)) == "Obese"
    ensures BmiCategory(27.0) == Overweight && Label(BmiCategory(27.0)) == "Overweight"
    ensures BmiCategory(30.0) == Obese
  {
  }

  /** Only the square of the height enters the formula: its sign is lost. */
  lemma BmiIgnoresHeightSign(weightKg: real, heightM: real)
    ensures CalculateBmi(weightKg, -heightM) == CalculateBmi(weightKg, heightM)
  {
    assert (-heightM) * (-heightM) == heightM * heightM;
  }

  /** The BMI has the sign of the weight, so a negative weight, which the
      formula does not refuse, is always "Underweight". */
  lemma BmiHasSignOfWeight(weightKg: real, heightM: real)
    requires heightM != 0.0
    ensures CalculateBmi(weightKg, heightM).value < 0.0 <==> weightKg < 0.0
    ensures CalculateBmi(weightKg, heightM).value == 0.0 <==> weightKg == 0.0
    ensures weightKg < 0.0 ==> BmiCategory(CalculateBmi(weightKg, heightM).value) == Underweight
  {
    var q := PositiveSquare(heightM);
    DivideByPositive(weightKg, q);
  }

  /** A positive divisor keeps the sign of the dividend. */
  lemma DivideByPositive(x: real, d: real)
    requires d > 0.0
    ensures x / d < 0.0 <==> x < 0.0
    ensures x / d == 0.0 <==> x == 0.0
  {
    var b := x / d;
    assert b * d == x;
    if b < 0.0 { assert (-b) * d > 0.0; }
    if b > 0.0 { assert b * d > 0.0; }
  }

  /** The square of a non-zero height, which is positive. It is returned as
      a value, with its sign, because the solver does not carry a fact about
      `h * h` over to a name bound to that product. */
  lemma PositiveSquare(h: real) returns (q: real)
    requires h != 0.0
    ensures q == h * h && q > 0.0
  {
    if h > 0.0 { q := PositiveProduct(h, h); } else { q := PositiveProduct(-h, -h); }
  }

  /** The product of two positives, returned as a value for the same reason. */
  lemma PositiveProduct(x: real, y: real) returns (p: real)
    requires x > 0.0 && y > 0.0
    ensures p == x * y && p > 0.0
  {
    p := x * y;
  }

  /** 70 kg at 1.75 m has a BMI of 70 / 3.0625, about 22.857. */
  lemma BmiExample()
    ensures CalculateBmi(70.0, 1.75) == Ok(70.0 / 3.0625)
    ensures 22.857 < 70.0 / 3.0625 < 22.858
  {
  }
}
