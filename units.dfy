/** The converter: weight to kilograms and height to metres, from a unit
    string the user chose (bmi_backendwithgui.py, `convert_weight_to_kg`
    and `convert_height_to_meters`).

    Quantities are exact `real`s: the Python code works on IEEE doubles,
    which are idealised here, so `weight * 0.453592` is the exact product. */
module Units {
  import opened Results
  import opened Text

  const InvalidWeightUnit := "Invalid weight unit. Use 'kg' or 'lbs'."
  const InvalidHeightUnit := "Invalid height unit. Use 'cm', 'm', or 'ft'."

  /** Kilograms per pound, as the converter rounds it. */
  const KgPerPound: real := 0.453592
  /** Metres per foot. */
  const MetresPerFoot: real := 0.3048

  /** Reference table: every accepted weight spelling, after normalisation,
      with the number of kilograms one such unit is worth. */
  const KgPerWeightUnit: map<string, real> :=
    map["kg" := 1.0, "lbs" := KgPerPound, "pounds" := KgPerPound, "lb" := KgPerPound]

  /** Reference table: every accepted height spelling, after normalisation,
      with the number of metres one such unit is worth. */
  const MetresPerHeightUnit: map<string, real> :=
    map["m" := 1.0, "cm" := 0.01, "ft" := MetresPerFoot, "feet" := MetresPerFoot]

  predicate IsWeightUnit(unit: string) {
    Normalise(unit) in KgPerWeightUnit
  }

  predicate IsHeightUnit(unit: string) {
    Normalise(unit) in MetresPerHeightUnit
  }

  /** `convert_weight_to_kg`: a unit is accepted exactly when its normalised
      spelling is in the table, and the weight is then scaled by that
      unit's factor; any other unit is the invalid-weight-unit error. */
  function ConvertWeightToKg(weight: real, unit: string): (r: Result<real>)
    ensures r.Ok? <==> IsWeightUnit(unit)
    ensures r.Ok? ==> r.value == weight * KgPerWeightUnit[Normalise(unit)]
    ensures r.Err? ==> r.msg == InvalidWeightUnit
  {
    var u := Normalise(unit);
    if u == "kg" then Ok(weight)
    else if u in ["lbs", "pounds", "lb"] then Ok(weight * KgPerPound)
    else Err(InvalidWeightUnit)
  }

  /** `convert_height_to_meters`: likewise against the height table
      (centimetres are divided by 100). */
  function ConvertHeightToMeters(height: real, unit: string): (r: Result<real>)
    ensures r.Ok? <==> IsHeightUnit(unit)
    ensures r.Ok? ==> r.value == height * MetresPerHeightUnit[Normalise(unit)]
    ensures r.Err? ==> r.msg == InvalidHeightUnit
  {
    var u := Normalise(unit);
    if u == "m" then Ok(height)
    else if u == "cm" then Ok(height / 100.0)
    else if u in ["ft", "feet"] then Ok(height * MetresPerFoot)
    else Err(InvalidHeightUnit)
  }

  /** The units the converters accept, each written as the converter
      compares it: lower case, no surrounding whitespace. */
  lemma AcceptedSpellings()
    ensures forall u :: u in KgPerWeightUnit ==> IsNormal(u)
    ensures forall u :: u in MetresPerHeightUnit ==> IsNormal(u)
  {
  }

  /** The weight converter looks at nothing of the unit but its normal form. */
  lemma WeightSeesOnlyNormalForm(x: real, s: string, t: string)
    requires Normalise(s) == Normalise(t)
    ensures ConvertWeightToKg(x, s) == ConvertWeightToKg(x, t)
  {
  }

  /** The height converter looks at nothing of the unit but its normal form. */
  lemma HeightSeesOnlyNormalForm(x: real, s: string, t: string)
    requires Normalise(s) == Normalise(t)
    ensures ConvertHeightToMeters(x, s) == ConvertHeightToMeters(x, t)
  {
  }

  /** Both converters give the same answer for a unit written in any ASCII
      case and surrounded by any whitespace. */
  lemma ConvertersIgnoreCaseAndPadding(x: real, a: string, u: string, v: string, b: string)
    requires AllSpace(a) && AllSpace(b)
    requires |u| == |v|
    requires forall i :: 0 <= i < |u| ==> LowerChar(u[i]) == LowerChar(v[i])
    ensures ConvertWeightToKg(x, a + u + b) == ConvertWeightToKg(x, v)
    ensures ConvertHeightToMeters(x, a + u + b) == ConvertHeightToMeters(x, v)
  {
    NormaliseIgnoresPadding(a, u, b);
    NormaliseIgnoresCase(u, v);
    WeightSeesOnlyNormalForm(x, a + u + b, v);
    HeightSeesOnlyNormalForm(x, a + u + b, v);
  }

  /** " KG " is read as kilograms: the weight comes back unchanged. */
  lemma PaddedUpperCaseKg(weight: real)
    ensures ConvertWeightToKg(weight, " KG ") == Ok(weight)
  {
  }

  /** One pound is 0.453592 kg. */
  lemma PoundsToKg(weight: real)
    ensures ConvertWeightToKg(weight, "lbs") == Ok(weight * 0.453592)
  {
    NormaliseOfNormal("lbs");
  }

  /** A weight unit outside the table, such as "stone", is refused with
      the weight-unit message whatever the weight. */
  lemma StoneIsRefused(weight: real)
    ensures ConvertWeightToKg(weight, "stone") == Err("Invalid weight unit. Use 'kg' or 'lbs'.")
  {
    NormaliseOfNormal("stone");
  }

  /** 100 cm is one metre and 1 ft is 0.3048 m. */
  lemma CentimetresAndFeet()
    ensures ConvertHeightToMeters(100.0, "cm") == Ok(1.0)
    ensures ConvertHeightToMeters(1.0, "ft") == Ok(0.3048)
  {
    NormaliseOfNormal("cm");
    NormaliseOfNormal("ft");
  }

  /** Inches are not a height unit: "in" is refused with the height-unit
      message whatever the height. */
  lemma InchesAreRefused(height: real)
    ensures ConvertHeightToMeters(height, "in") == Err("Invalid height unit. Use 'cm', 'm', or 'ft'.")
  {
    NormaliseOfNormal("in");
  }

  /** Every weight factor is positive, so an accepted weight conversion
      keeps the order of its inputs and maps zero, and only zero, to zero. */
  lemma WeightConversionMonotone(x: real, y: real, unit: string)
    requires IsWeightUnit(unit)
    ensures ConvertWeightToKg(x, unit).value < ConvertWeightToKg(y, unit).value <==> x < y
    ensures ConvertWeightToKg(x, unit).value == 0.0 <==> x == 0.0
  {
    var k := KgPerWeightUnit[Normalise(unit)];
    assert k > 0.0;
    ScaleMonotone(x, y, k);
    ScaleMonotone(x, 0.0, k);
  }

  /** Likewise for heights: in particular a height converts to zero metres
      exactly when it was zero, and a negative height stays negative. */
  lemma HeightConversionMonotone(x: real, y: real, unit: string)
    requires IsHeightUnit(unit)
    ensures ConvertHeightToMeters(x, unit).value < ConvertHeightToMeters(y, unit).value <==> x < y
    ensures ConvertHeightToMeters(x, unit).value == 0.0 <==> x == 0.0
    ensures ConvertHeightToMeters(x, unit).value < 0.0 <==> x < 0.0
  {
    var k := MetresPerHeightUnit[Normalise(unit)];
    assert k > 0.0;
    ScaleMonotone(x, y, k);
    ScaleMonotone(x, 0.0, k);
  }

  lemma ScaleMonotone(x: real, y: real, k: real)
    requires k > 0.0
    ensures x * k < y * k <==> x < y
    ensures x * k == y * k <==> x == y
  {
    if x < y { assert (y - x) * k > 0.0; }
    if y < x { assert (x - y) * k > 0.0; }
  }
}
