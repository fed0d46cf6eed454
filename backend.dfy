/** The controller (bmi_backendwithgui.py, `bmi_backend`): converts both
    quantities, computes the BMI and its category, and reports either a
    record of rounded values or the message of the first error. The
    `{"error": msg}` dictionary is `Err(msg)`; the result dictionary is a
    `BmiRecord`. */
module Backend {
  import opened Results
  import opened Text
  import opened Units
  import opened Classifier

  /** The success dictionary: `weight_kg`, `height_m` and `bmi` rounded to
      two decimals, and the category label. */
  datatype BmiRecord = BmiRecord(weightKg: real, heightM: real, bmi: real, category: string)

  function Abs(x: real): real {
    if x < 0.0 then -x else x
  }

  /** `x` is a whole number of hundredths. */
  predicate IsCents(x: real) {
    (x * 100.0).Floor as real == x * 100.0
  }

  /** `round(x, 2)` on the exact value: the nearest multiple of 0.01, a tie
      going to the multiple whose last digit is even. */
  function Round2(x: real): (r: real)
    ensures IsCents(r)
    ensures -0.005 <= r - x <= 0.005
    ensures (r - x == 0.005 || r - x == -0.005) ==> (r * 100.0).Floor % 2 == 0
  {
    var n := (x * 100.0).Floor;
    var f := x * 100.0 - n as real;
    var k := if f < 0.5 then n else if f > 0.5 then n + 1 else if n % 2 == 0 then n else n + 1;
    k as real / 100.0
  }

  /** A value that is already a whole number of hundredths is left alone. */
  lemma Round2OfCents(k: int)
    ensures Round2(k as real / 100.0) == k as real / 100.0
  {
    assert (k as real / 100.0 * 100.0).Floor == k;
  }

  /** No multiple of 0.01 is closer to `x` than `Round2(x)`. */
  lemma Round2Nearest(x: real, k: int)
    ensures Abs(Round2(x) - x) <= Abs(k as real / 100.0 - x)
  {
    var n := (x * 100.0).Floor;
    assert n as real <= x * 100.0 < n as real + 1.0;
    var r := Round2(x);
    assert (r * 100.0).Floor == n || (r * 100.0).Floor == n + 1;
    if k <= n {
      assert k as real / 100.0 - x <= n as real / 100.0 - x;
    } else {
      assert k as real / 100.0 - x >= (n + 1) as real / 100.0 - x;
    }
  }

  /** `bmi_backend`: the weight unit is checked before the height unit, a
      zero height in metres is refused after both, and otherwise the record
      holds the table-converted weight and height and their BMI, each
      rounded, with the category of the unrounded BMI. Only the three
      messages of the steps can come out. */
  function BmiBackend(weight: real, weightUnit: string, height: real, heightUnit: string): (r: Result<BmiRecord>)
    ensures !IsWeightUnit(weightUnit) ==> r == Err(InvalidWeightUnit)
    ensures IsWeightUnit(weightUnit) && !IsHeightUnit(heightUnit) ==> r == Err(InvalidHeightUnit)
    ensures IsWeightUnit(weightUnit) && IsHeightUnit(heightUnit) ==>
      (r.Err? <==> ConvertHeightToMeters(height, heightUnit).value == 0.0) &&
      (r.Err? ==> r.msg == HeightCannotBeZero)
    ensures r.Ok? ==>
      var kg := ConvertWeightToKg(weight, weightUnit).value;
      var m := ConvertHeightToMeters(height, heightUnit).value;
      var bmi := CalculateBmi(kg, m).value;
      m != 0.0 &&
      r.value == BmiRecord(Round2(kg), Round2(m), Round2(bmi), Label(BmiCategory(bmi)))
  {
    var kg :- ConvertWeightToKg(weight, weightUnit);
    var m :- ConvertHeightToMeters(height, heightUnit);
    var bmi :- CalculateBmi(kg, m);
    Ok(BmiRecord(Round2(kg), Round2(m), Round2(bmi), Label(BmiCategory(bmi))))
  }

  /** With both units accepted, the controller fails exactly when the
      height given is zero, and then with the zero-height message. */
  lemma ZeroHeightIsTheOnlyLateError(weight: real, weightUnit: string, height: real, heightUnit: string)
    requires IsWeightUnit(weightUnit) && IsHeightUnit(heightUnit)
    ensures BmiBackend(weight, weightUnit, height, heightUnit).Ok? <==> height != 0.0
    ensures height == 0.0 ==> BmiBackend(weight, weightUnit, height, heightUnit) == Err(HeightCannotBeZero)
  {
    HeightConversionMonotone(height, height, heightUnit);
  }

  /** Every error the controller reports is one of the three messages of
      the steps it chains: nothing escapes as another error. */
  lemma ErrorsAreTheStepMessages(weight: real, weightUnit: string, height: real, heightUnit: string)
    ensures var r := BmiBackend(weight, weightUnit, height, heightUnit);
      r.Err? ==> r.msg in {InvalidWeightUnit, InvalidHeightUnit, HeightCannotBeZero}
  {
  }

  /** The controller sees nothing of the unit strings but their normal
      forms: any ASCII case and surrounding whitespace give the same outcome. */
  lemma BackendSeesOnlyNormalForms(weight: real, wu: string, wu': string, height: real, hu: string, hu': string)
    requires Normalise(wu) == Normalise(wu') && Normalise(hu) == Normalise(hu')
    ensures BmiBackend(weight, wu, height, hu) == BmiBackend(weight, wu', height, hu')
  {
    WeightSeesOnlyNormalForm(weight, wu, wu');
    HeightSeesOnlyNormalForm(height, hu, hu');
  }

  /** The rounded BMI is within half a hundredth of the exact one. */
  lemma ReportedBmiIsClose(weight: real, weightUnit: string, height: real, heightUnit: string)
    requires BmiBackend(weight, weightUnit, height, heightUnit).Ok?
    ensures var kg, m := ConvertWeightToKg(weight, weightUnit).value, ConvertHeightToMeters(height, heightUnit).value;
      Abs(BmiBackend(weight, weightUnit, height, heightUnit).value.bmi - kg / (m * m)) <= 0.005
  {
  }

  /** 70 kg and 175 cm: 1.75 m and a BMI of 22.86, "Normal Weight". */
  lemma SeventyKgAt175Cm()
    ensures BmiBackend(70.0, "kg", 175.0, "cm") == Ok(BmiRecord(70.0, 1.75, 22.86, "Normal Weight"))
  {
    NormaliseOfNormal("kg");
    NormaliseOfNormal("cm");
    Round2OfCents(7000);
    Round2OfCents(175);
    assert 1.75 * 1.75 == 3.0625;
    assert 2285.0 <= 70.0 / 3.0625 * 100.0 < 2286.0;
  }

  /** The category comes from the unrounded BMI: 24.899 is "Normal Weight"
      and is reported as 24.9, a value the classifier calls "Obese". */
  lemma DisplayedCategoryCanDisagree()
    ensures BmiBackend(24.899, "kg", 1.0, "m") == Ok(BmiRecord(24.9, 1.0, 24.9, "Normal Weight"))
    ensures Label(BmiCategory(24.9)) == "Obese"
  {
    NormaliseOfNormal("kg");
    NormaliseOfNormal("m");
    Round2OfCents(100);
    assert (24.899 * 100.0).Floor == 2489;
  }
}
